/** Over whole runs the revision of greatest order decides a message, in whatever order the revisions arrive. */
module Arrival {
  import opened Prelude
  import opened Domain
  import opened Database
  import opened Planning
  import opened Deliveries
  import opened Timers
  import opened Queues
  import opened QuietTransactions
  import opened Evolution
  import opened Steps
  import opened Integrity
  import opened Keys
  import opened Effects
  import opened QueueBounds
  import opened Runs
  import opened Revisions
  import opened Guarantees

  // ----- nothing of a standing message is ahead of it

  predicate Standing(messages: seq<Message>, m: int) {
    HasRow(messages, m) && !messages[m].tombstone
  }

  predicate PartBehind(messages: seq<Message>, p: Part) {
    Standing(messages, p.message) ==> p.version.order <= messages[p.message].version.order
  }

  /** Reactions have an order of their own. */
  predicate RowBehind(messages: seq<Message>, r: OutboxRow) {
    r.message.Some? && Standing(messages, r.message.value) && !r.operation.ReactionSet? ==>
      r.payload.version.order <= messages[r.message.value].version.order
  }

  predicate Behind(db: Db) {
    && PositiveOrders(db.messages)
    && (forall p :: 0 <= p < |db.parts| ==> PartBehind(db.messages, db.parts[p]))
    && (forall i :: 0 <= i < |db.outbox| ==> RowBehind(db.messages, db.outbox[i]))
  }

  /** Creates and edits carry positive orders, and the completion of a reaction reports no parts, as every send does. */
  predicate OrderlyStep(db: Db, s: Step) {
    && PositiveStep(s)
    && (s.CompleteStep? && HasRow(db.outbox, s.id) && db.outbox[s.id].operation.ReactionSet? ==> s.c.parts == [])
  }

  lemma RisingKeepsBehind(a: Db, b: Db)
    requires Linked(a) && Behind(a) && PositiveOrders(b.messages) && VersionsRise(a.messages, b.messages)
    requires MessagesGrow(a.messages, b.messages) && QueuesGrow(a, b)
    ensures forall i :: 0 <= i < |a.outbox| ==> RowBehind(b.messages, b.outbox[i])
    ensures forall p :: 0 <= p < |a.parts| ==> PartBehind(b.messages, a.parts[p])
  {
    forall m | 0 <= m < |a.messages| && Standing(b.messages, m)
      ensures Standing(a.messages, m) && a.messages[m].version.order <= b.messages[m].version.order
    {
      assert MessageGrows(a.messages[m], b.messages[m]) && VersionRises(a.messages[m], b.messages[m]);
    }
    forall i | 0 <= i < |a.outbox| ensures RowBehind(b.messages, b.outbox[i]) {
      assert OutboxRowGrows(a.outbox[i], b.outbox[i]) && RowLinked(a, i) && RowBehind(a.messages, a.outbox[i]);
    }
    forall p | 0 <= p < |a.parts| ensures PartBehind(b.messages, a.parts[p]) {
      assert PartLinked(a, a.parts[p]) && PartBehind(a.messages, a.parts[p]);
    }
  }

  // ----- rows that a plan adds

  lemma InsertAppendsOne(o: Options, db: Db, inbox: nat, d: Delivery, message: Option<nat>, now: int)
    requires InsertDelivery(o, db, inbox, d, message, now).Ok?
    ensures var b := InsertDelivery(o, db, inbox, d, message, now).value;
      db.outbox <= b.outbox && forall i :: |db.outbox| <= i < |b.outbox| ==>
        b.outbox[i].message == message && b.outbox[i].payload.version == d.version && b.outbox[i].operation == d.kind
  {
  }

  lemma {:induction false} InsertedVersions(o: Options, db: Db, inbox: nat, ds: seq<Delivery>, message: Option<nat>,
                                            chat: nat, now: int)
    requires InsertAll(o, db, inbox, ds, message, chat, now).Ok?
    ensures var b := InsertAll(o, db, inbox, ds, message, chat, now).value;
      forall i :: |db.outbox| <= i < |b.outbox| ==>
        b.outbox[i].message == message
        && exists k :: 0 <= k < |ds| && b.outbox[i].payload.version == ds[k].version && b.outbox[i].operation == ds[k].kind
  {
    if ds != [] {
      var n := |ds| - 1;
      var before := InsertAll(o, db, inbox, ds[..n], message, chat, now).value;
      var b := InsertAll(o, db, inbox, ds, message, chat, now).value;
      InsertedVersions(o, db, inbox, ds[..n], message, chat, now);
      InsertAppendsOne(o, before, inbox, ds[n], message, now);
      forall i | |db.outbox| <= i < |b.outbox|
        ensures b.outbox[i].message == message
                && exists k :: 0 <= k < |ds| && b.outbox[i].payload.version == ds[k].version
                               && b.outbox[i].operation == ds[k].kind
      {
        if i < |before.outbox| {
          var k :| 0 <= k < n && before.outbox[i].payload.version == ds[..n][k].version
                   && before.outbox[i].operation == ds[..n][k].kind;
          assert b.outbox[i] == before.outbox[i] && ds[..n][k] == ds[k];
        } else {
          assert b.outbox[i].payload.version == ds[n].version && b.outbox[i].operation == ds[n].kind;
        }
      }
    }
  }

  lemma {:induction false} CheckedIntents(e: Event, ds: seq<Delivery>)
    requires CheckIntents(e, ds).Ok?
    ensures forall k :: 0 <= k < |ds| ==> ds[k].version == e.version && (e.target.Some? ==> ds[k].kind == e.kind)
  {
    if ds != [] {
      CheckedIntents(e, ds[1..]);
      assert forall k :: 0 < k < |ds| ==> ds[k] == ds[1..][k - 1];
    }
  }

  /** The effective version of the message a plan works on is the event's, unless it is a reaction or deletes. */
  lemma AppliedVersion(db: Db, e: Event, ds: seq<Delivery>, now: int)
    requires ApplyEvent(db, e, ds, now).Ok? && !ApplyEvent(db, e, ds, now).value.suppress
    ensures var a := ApplyEvent(db, e, ds, now).value;
      a.message.Some? ==> e.target.Some? && (e.kind.ReactionSet? || !Standing(a.db.messages, a.message.value)
                                             || a.db.messages[a.message.value].version == e.version)
  {
  }

  lemma PlannedRowsBehind(o: Options, db: Db, c: PlanCall)
    requires Plan(o, db, c).Ok?
    ensures var b := Plan(o, db, c).value;
      |db.outbox| <= |b.outbox| && forall i :: |db.outbox| <= i < |b.outbox| ==> RowBehind(b.messages, b.outbox[i])
  {
    var fenced, a, b := Fence(c.now, c.clocks.first), AppliedBy(db, c).value, Plan(o, db, c).value;
    PlanKeepsSources(o, db, c);
    ApplyEventQuiet(db, c.e, c.ds, fenced);
    PlanWorkFrame(o, a, c.id, c.ds, c.timers, fenced);
    if !a.suppress {
      var inserted := InsertAll(o, a.db, c.id, c.ds, a.message, a.chat, fenced).value;
      InsertAllAppends(o, a.db, c.id, c.ds, a.message, a.chat, fenced);
      InsertedVersions(o, a.db, c.id, c.ds, a.message, a.chat, fenced);
      ScheduleAllAppends(inserted, c.timers, a.message);
      CheckedIntents(c.e, c.ds);
      AppliedVersion(db, c.e, c.ds, fenced);
      forall i | |db.outbox| <= i < |b.outbox| ensures RowBehind(b.messages, b.outbox[i]) {
        assert b.outbox[i] == inserted.outbox[i];
      }
    }
  }

  lemma {:induction false} InsertRevokesMessage(o: Options, db: Db, t: Timer, chat: nat, inbox: nat, ds: seq<Delivery>,
                                                now: int)
    requires InsertRevokes(o, db, t, chat, inbox, ds, now).Ok?
    ensures var b := InsertRevokes(o, db, t, chat, inbox, ds, now).value;
      forall i :: |db.outbox| <= i < |b.outbox| ==> b.outbox[i].message == Some(t.message) && t.kind.Expire?
  {
    if ds != [] {
      InsertRevokesMessage(o, db, t, chat, inbox, ds[..|ds| - 1], now);
    }
  }

  lemma TimerRowsBehind(o: Options, db: Db, t: Timer, ds: seq<Delivery>, now: int)
    requires HasRow(db.messages, t.message) && ApplyTimer(o, db, t, ds, now).Ok?
    ensures var b := ApplyTimer(o, db, t, ds, now).value;
      |db.outbox| <= |b.outbox| && forall i :: |db.outbox| <= i < |b.outbox| ==> RowBehind(b.messages, b.outbox[i])
  {
    var inbox := if ds == [] then 0 else OriginInbox(db.outbox, t.message).value;
    InsertRevokesAppends(o, db, t, db.messages[t.message].chat, inbox, ds, now);
    InsertRevokesMessage(o, db, t, db.messages[t.message].chat, inbox, ds, now);
  }

  lemma NewRowsBehind(o: Options, db: Db, token: nat, s: Step)
    requires Outcome(o, db, token, s).Ok?
    ensures var b := After(o, db, token, s);
      forall i :: |db.outbox| <= i < |b.outbox| ==> RowBehind(b.messages, b.outbox[i])
  {
    match s
    case PlanStep(e, id, t, ds, timers, now, clocks) => PlannedRowsBehind(o, db, PlanCall(e, id, t, ds, timers, now, clocks));
    case CompleteTimerStep(id, t, ds, now, clocks) => TimerRowsBehind(o, db, db.timers[id], ds, Fence(now, clocks.first));
    case _ => OutboxLength(o, db, token, s);
  }

  // ----- versions of parts

  /** Parts keep their versions or move to `v`, and new parts are at `v`. */
  predicate VersionsFrom(a: seq<Part>, b: seq<Part>, v: SourceVersion) {
    && |a| <= |b| && (forall p :: 0 <= p < |a| ==> b[p].version == a[p].version || b[p].version == v)
    && (forall p :: |a| <= p < |b| ==> b[p].version == v)
  }

  lemma AcknowledgeVersions(parts: seq<Part>, m: nat, key: Key, v: SourceVersion, deleted: bool)
    requires Acknowledge(parts, m, key, v, deleted).Ok?
    ensures VersionsFrom(parts, Acknowledge(parts, m, key, v, deleted).value, v)
  {
    AcknowledgedIsGreater(parts, m, key, v, deleted);
  }

  lemma LinkPartVersions(parts: seq<Part>, m: nat, d: Delivery, r: DeliveredPart, v: SourceVersion, tombstone: bool)
    requires LinkPart(parts, m, d, r, v, tombstone).Ok?
    ensures VersionsFrom(parts, LinkPart(parts, m, d, r, v, tombstone).value, v)
  {
    if FindPart(parts, RefKey(r.ref)).Some? {
      AcknowledgeVersions(parts, m, RefKey(r.ref), v, r.deleted || tombstone);
    }
  }

  lemma {:induction false} LinkPartsVersions(parts: seq<Part>, m: nat, d: Delivery, chat: Chat, results: seq<DeliveredPart>,
                                             v: SourceVersion, tombstone: bool)
    requires LinkParts(parts, m, d, chat, results, v, tombstone).Ok?
    ensures VersionsFrom(parts, LinkParts(parts, m, d, chat, results, v, tombstone).value, v)
  {
    if results != [] {
      var n := |results| - 1;
      LinkPartsVersions(parts, m, d, chat, results[..n], v, tombstone);
      LinkPartVersions(LinkParts(parts, m, d, chat, results[..n], v, tombstone).value, m, d, results[n], v, tombstone);
    }
  }

  lemma CompletedVersions(parts: seq<Part>, m: nat, d: Delivery, chat: Chat, c: Completion, tombstone: bool)
    requires CompletedParts(parts, m, d, chat, c, tombstone).Ok?
    ensures var b := CompletedParts(parts, m, d, chat, c, tombstone).value;
      && VersionsFrom(parts, b, c.version)
      && (d.kind.ReactionSet? && c.parts == [] ==> b == parts)
  {
    var linked := LinkParts(parts, m, d, chat, c.parts, c.version, tombstone).value;
    LinkPartsVersions(parts, m, d, chat, c.parts, c.version, tombstone);
    if (d.kind.MessageEdit? || d.kind.MessageRevoke?) && d.target.Some? {
      AcknowledgeVersions(linked, m, RefKey(d.target.value), c.version, d.kind.MessageRevoke? || tombstone);
    }
  }

  lemma CompletionKeepsPartsBehind(o: Options, db: Db, s: Step)
    requires Linked(db) && Behind(db) && OrderlyStep(db, s)
    requires s.CompleteStep? && CompleteDelivery(o, db, s.id, s.token, s.c, s.now, s.clocks).Ok?
    ensures var b := CompleteDelivery(o, db, s.id, s.token, s.c, s.now, s.clocks).value;
      forall p :: 0 <= p < |b.parts| ==> PartBehind(b.messages, b.parts[p])
  {
    var b := CompleteDelivery(o, db, s.id, s.token, s.c, s.now, s.clocks).value;
    var m, d, r := CompletionShape(db, s.id, s.c).value, db.outbox[s.id].payload, db.outbox[s.id];
    var chat := db.chats[r.chat];
    CompletedVersions(db.parts, m, d, chat, s.c, db.messages[m].tombstone);
    CompletionRecords(o, db, s.id, s.token, s.c, s.now, s.clocks);
    CompleteDeliveryGrows(o, db, s.id, s.token, s.c, s.now, s.clocks);
    assert RowLinked(db, s.id) && RowBehind(db.messages, r);
    forall p | 0 <= p < |b.parts| ensures PartBehind(b.messages, b.parts[p]) {
      if p < |db.parts| {
        assert PartBehind(db.messages, db.parts[p]) && PartGrows(db.parts[p], b.parts[p]);
      }
    }
  }

  /** An event leaves a part at its version, or moves it to the version of its message. */
  lemma AppliedParts(db: Db, e: Event, ds: seq<Delivery>, now: int)
    requires ApplyEvent(db, e, ds, now).Ok?
    ensures var b := ApplyEvent(db, e, ds, now).value.db;
      && |db.parts| <= |b.parts|
      && forall p :: 0 <= p < |b.parts| ==>
           || (p < |db.parts| && b.parts[p].version == db.parts[p].version)
           || (b.parts[p].message < |b.messages| && b.parts[p].version == b.messages[b.parts[p].message].version)
  {
  }

  lemma PlanKeepsPartsBehind(o: Options, db: Db, c: PlanCall)
    requires Linked(db) && Behind(db) && Plan(o, db, c).Ok?
    requires PositiveOrders(Plan(o, db, c).value.messages) && VersionsRise(db.messages, Plan(o, db, c).value.messages)
    ensures var b := Plan(o, db, c).value; forall p :: 0 <= p < |b.parts| ==> PartBehind(b.messages, b.parts[p])
  {
    var fenced, b := Fence(c.now, c.clocks.first), Plan(o, db, c).value;
    PlanKeepsSources(o, db, c);
    ApplyEventGrows(db, c.e, c.ds, fenced);
    AppliedParts(db, c.e, c.ds, fenced);
    forall p | 0 <= p < |b.parts| ensures PartBehind(b.messages, b.parts[p]) {
      if p < |db.parts| {
        var m := db.parts[p].message;
        assert PartLinked(db, db.parts[p]) && PartBehind(db.messages, db.parts[p]);
        assert VersionRises(db.messages[m], b.messages[m]) && MessageGrows(db.messages[m], b.messages[m]);
        assert PartGrows(db.parts[p], b.parts[p]);
      }
    }
  }

  lemma OtherPartsKeepVersions(o: Options, db: Db, token: nat, s: Step)
    requires Outcome(o, db, token, s).Ok? && !s.PlanStep? && !s.CompleteStep?
    ensures var b := After(o, db, token, s).parts;
      |b| == |db.parts| && forall p :: 0 <= p < |b| ==>
        b[p].version == db.parts[p].version && b[p].message == db.parts[p].message
  {
    if s.CompleteTimerStep? {
      ApplyTimerParts(o, db, db.timers[s.id], s.ds, Fence(s.now, s.clocks.first));
    }
  }

  lemma SameVersionsBehind(messages: seq<Message>, a: seq<Part>, b: seq<Part>)
    requires |b| == |a| && forall p :: 0 <= p < |b| ==> b[p].version == a[p].version && b[p].message == a[p].message
    requires forall p :: 0 <= p < |a| ==> PartBehind(messages, a[p])
    ensures forall p :: 0 <= p < |b| ==> PartBehind(messages, b[p])
  {
    forall p | 0 <= p < |b| ensures PartBehind(messages, b[p]) {
      assert PartBehind(messages, a[p]);
    }
  }

  lemma StepKeepsPartsBehind(o: Options, db: Db, token: nat, s: Step)
    requires LeaseShape(db) && Linked(db) && Behind(db) && OrderlyStep(db, s) && Outcome(o, db, token, s).Ok?
    ensures var b := After(o, db, token, s); forall p :: 0 <= p < |b.parts| ==> PartBehind(b.messages, b.parts[p])
  {
    StepRaisesVersions(o, db, token, s);
    if s.PlanStep? {
      PlanKeepsPartsBehind(o, db, PlanCall(s.e, s.id, s.token, s.ds, s.timers, s.now, s.clocks));
    } else if s.CompleteStep? {
      CompletionKeepsPartsBehind(o, db, s);
    } else {
      StepKeepsShape(o, db, token, s);
      RisingKeepsBehind(db, After(o, db, token, s));
      OtherPartsKeepVersions(o, db, token, s);
      SameVersionsBehind(After(o, db, token, s).messages, db.parts, After(o, db, token, s).parts);
    }
  }

  /** Along orderly runs no part, and no row but a reaction, is ahead of its standing message. */
  lemma StepKeepsBehind(o: Options, db: Db, token: nat, s: Step)
    requires LeaseShape(db) && Linked(db) && Behind(db) && OrderlyStep(db, s)
    ensures Behind(After(o, db, token, s))
  {
    if Outcome(o, db, token, s).Ok? {
      StepRaisesVersions(o, db, token, s);
      StepKeepsShape(o, db, token, s);
      RisingKeepsBehind(db, After(o, db, token, s));
      NewRowsBehind(o, db, token, s);
      StepKeepsPartsBehind(o, db, token, s);
    }
  }

  // ----- one step of a run

  /** The step plans a create or edit of message `m`, through whichever of its parts. */
  predicate RevisesMessage(db: Db, s: Step, m: nat) {
    && s.PlanStep? && s.e.target.Some? && (s.e.kind.MessageCreate? || s.e.kind.MessageEdit?)
    && FindPart(db.parts, RefKey(s.e.target.value)).Some?
    && db.parts[FindPart(db.parts, RefKey(s.e.target.value)).value].message == m
  }

  /** What a message effectively says. */
  datatype Content = Content(version: SourceVersion, text: Option<TextContent>)

  function ContentOf(m: Message): Content {
    Content(m.version, m.text)
  }

  /** A revision counts if and only if its order is greater. */
  function Revised(c: Content, e: Event): Content {
    if e.version.order > c.version.order then Content(e.version, e.text) else c
  }

  lemma RevisionCounts(db: Db, e: Event, p: nat)
    requires Behind(db) && p < |db.parts| && Standing(db.messages, db.parts[p].message)
    requires e.version.order > 0 && ApplyRevision(db, e, p).Ok?
    ensures var m, b := db.parts[p].message, ApplyRevision(db, e, p).value.db.messages;
      |b| == |db.messages| && ContentOf(b[m]) == Revised(ContentOf(db.messages[m]), e)
  {
    assert PartBehind(db.messages, db.parts[p]);
  }

  lemma PlanRevises(o: Options, db: Db, token: nat, s: Step, m: nat)
    requires Linked(db) && Behind(db) && OrderlyStep(db, s) && Standing(db.messages, m)
    requires Outcome(o, db, token, s).Ok? && RevisesMessage(db, s, m)
    ensures m < |After(o, db, token, s).messages|
    ensures ContentOf(After(o, db, token, s).messages[m]) == Revised(ContentOf(db.messages[m]), s.e)
  {
    PlanKeepsSources(o, db, PlanCall(s.e, s.id, s.token, s.ds, s.timers, s.now, s.clocks));
    RevisionCounts(db, s.e, FindPart(db.parts, RefKey(s.e.target.value)).value);
  }

  lemma AppliedElsewhere(db: Db, e: Event, ds: seq<Delivery>, now: int, m: nat)
    requires ApplyEvent(db, e, ds, now).Ok? && m < |db.messages|
    requires e.target.Some? && (e.kind.MessageCreate? || e.kind.MessageEdit?) && FindPart(db.parts, RefKey(e.target.value)).Some? ==>
               db.parts[FindPart(db.parts, RefKey(e.target.value)).value].message != m
    ensures var b := ApplyEvent(db, e, ds, now).value.db.messages;
      m < |b| && (Standing(b, m) ==> ContentOf(b[m]) == ContentOf(db.messages[m]))
  {
  }

  lemma OtherStepKeepsContent(o: Options, db: Db, token: nat, s: Step, m: nat)
    requires m < |db.messages| && !(Outcome(o, db, token, s).Ok? && RevisesMessage(db, s, m))
    ensures var b := After(o, db, token, s).messages;
      m < |b| && (Standing(b, m) ==> ContentOf(b[m]) == ContentOf(db.messages[m]))
  {
    if Outcome(o, db, token, s).Ok? {
      if s.PlanStep? {
        PlanKeepsSources(o, db, PlanCall(s.e, s.id, s.token, s.ds, s.timers, s.now, s.clocks));
        AppliedElsewhere(db, s.e, s.ds, Fence(s.now, s.clocks.first), m);
      } else if s.CompleteTimerStep? {
        TimerMessages(o, db, db.timers[s.id], s.ds, Fence(s.now, s.clocks.first));
      } else if SendStep(s) {
        SendStepFrame(o, db, token, s);
      } else if ChatStep(s) {
        ChatStepFrame(o, db, token, s);
      }
    }
  }

  // ----- runs

  /** The create and edit events of message `m` that the run plans, in the order they are planned. */
  ghost function RevisionsOf(o: Options, w: World, steps: seq<Step>, m: nat): seq<Event> {
    if steps == [] then []
    else
      var n := |steps| - 1;
      var v := Execute(o, w, steps[..n]);
      RevisionsOf(o, w, steps[..n], m)
      + if Outcome(o, v.db, |v.issued|, steps[n]).Ok? && RevisesMessage(v.db, steps[n], m) then [steps[n].e] else []
  }

  ghost predicate OrderlyRun(o: Options, w: World, steps: seq<Step>) {
    forall n :: 0 <= n < |steps| ==> OrderlyStep(Execute(o, w, steps[..n]).db, steps[n])
  }

  /** The content after a sequence of revisions: each counts if and only if its order is greater. */
  function Latest(c: Content, es: seq<Event>): Content {
    if es == [] then c else Revised(Latest(c, es[..|es| - 1]), es[|es| - 1])
  }

  lemma OrderlyPrefix(o: Options, w: World, steps: seq<Step>, n: nat)
    requires OrderlyRun(o, w, steps) && n <= |steps|
    ensures OrderlyRun(o, w, steps[..n])
  {
    forall k | 0 <= k < n ensures OrderlyStep(Execute(o, w, steps[..n][..k]).db, steps[..n][k]) {
      assert steps[..n][..k] == steps[..k];
    }
  }

  lemma NextKeepsBehind(o: Options, w: World, s: Step)
    requires Sound(o, w) && Behind(w.db) && OrderlyStep(w.db, s)
    ensures Behind(Apply(o, w, s).db)
  {
    StepKeepsBehind(o, w.db, |w.issued|, s);
  }

  lemma {:induction false} RunKeepsBehind(o: Options, w: World, steps: seq<Step>)
    requires Sound(o, w) && Behind(w.db) && OrderlyRun(o, w, steps)
    ensures Behind(Execute(o, w, steps).db)
  {
    if steps != [] {
      var n := |steps| - 1;
      OrderlyPrefix(o, w, steps, n);
      RunKeepsBehind(o, w, steps[..n]);
      RunKeepsSound(o, w, steps[..n]);
      NextKeepsBehind(o, Execute(o, w, steps[..n]), steps[n]);
    }
  }

  /** Every state an orderly run reaches is fit to start from below. */
  lemma ReachableIsBehind(o: Options, steps: seq<Step>)
    requires ValidOptions(o) && OrderlyRun(o, START, steps)
    ensures Sound(o, Execute(o, START, steps)) && Behind(Execute(o, START, steps).db)
  {
    StartIsSound(o);
    RunKeepsSound(o, START, steps);
    RunKeepsBehind(o, START, steps);
  }

  lemma NextContent(o: Options, w: World, s: Step, m: nat)
    requires Sound(o, w) && Behind(w.db) && OrderlyStep(w.db, s) && Standing(w.db.messages, m)
    ensures m < |Apply(o, w, s).db.messages|
    ensures Standing(Apply(o, w, s).db.messages, m) ==>
              ContentOf(Apply(o, w, s).db.messages[m])
              == if Outcome(o, w.db, |w.issued|, s).Ok? && RevisesMessage(w.db, s, m)
                 then Revised(ContentOf(w.db.messages[m]), s.e) else ContentOf(w.db.messages[m])
  {
    if Outcome(o, w.db, |w.issued|, s).Ok? && RevisesMessage(w.db, s, m) {
      PlanRevises(o, w.db, |w.issued|, s, m);
    } else {
      OtherStepKeepsContent(o, w.db, |w.issued|, s, m);
    }
  }

  lemma DeletionStays(o: Options, w: World, s: Step, m: nat)
    requires Sound(o, w) && m < |w.db.messages| && Standing(Apply(o, w, s).db.messages, m)
    ensures Standing(w.db.messages, m)
  {
    StepGrows(o, w.db, |w.issued|, s);
    assert MessageGrows(w.db.messages[m], Apply(o, w, s).db.messages[m]);
  }

  lemma LatestNext(c: Content, es: seq<Event>, s: Step)
    ensures s.PlanStep? ==> Latest(c, es + [s.e]) == Revised(Latest(c, es), s.e)
    ensures es + [] == es
  {
    if s.PlanStep? {
      assert (es + [s.e])[..|es|] == es;
    }
  }

  /** While the message stands, its content is that of its planned revisions applied one by one. */
  lemma {:induction false} ContentIsLatest(o: Options, w: World, steps: seq<Step>, m: nat)
    requires Sound(o, w) && Behind(w.db) && OrderlyRun(o, w, steps) && m < |w.db.messages|
    requires Standing(Execute(o, w, steps).db.messages, m)
    ensures Standing(w.db.messages, m)
    ensures ContentOf(Execute(o, w, steps).db.messages[m])
            == Latest(ContentOf(w.db.messages[m]), RevisionsOf(o, w, steps, m))
  {
    if steps != [] {
      var n := |steps| - 1;
      var v := Execute(o, w, steps[..n]);
      OrderlyPrefix(o, w, steps, n);
      RunKeepsSound(o, w, steps[..n]);
      RunKeepsBehind(o, w, steps[..n]);
      DeletionStays(o, v, steps[n], m);
      ContentIsLatest(o, w, steps[..n], m);
      NextContent(o, v, steps[n], m);
      LatestNext(ContentOf(w.db.messages[m]), RevisionsOf(o, w, steps[..n], m), steps[n]);
    }
  }

  // ----- the order of arrival

  /** `c` is where the message stood, or one of the revisions, and nothing among them is greater. */
  predicate Decides(start: Content, es: seq<Event>, c: Content) {
    && start.version.order <= c.version.order && (forall i :: 0 <= i < |es| ==> es[i].version.order <= c.version.order)
    && (c == start || (start.version.order < c.version.order
                       && exists i :: 0 <= i < |es| && c == Content(es[i].version, es[i].text)))
  }

  lemma {:induction false} LatestDecides(start: Content, es: seq<Event>)
    ensures Decides(start, es, Latest(start, es))
  {
    if es != [] {
      var n := |es| - 1;
      LatestDecides(start, es[..n]);
      var before, c := Latest(start, es[..n]), Latest(start, es);
      assert forall i :: 0 <= i < n ==> es[..n][i] == es[i];
      if c != before {
        assert c == Content(es[n].version, es[n].text);
      } else if c != start {
        var i :| 0 <= i < n && c == Content(es[..n][i].version, es[..n][i].text);
        assert c == Content(es[i].version, es[i].text);
      }
    }
  }

  predicate DistinctOrders(es: seq<Event>) {
    forall i, j :: 0 <= i < j < |es| ==> es[i].version.order != es[j].version.order
  }

  lemma InBoth(es: seq<Event>, fs: seq<Event>, j: nat) returns (i: nat)
    requires multiset(es) == multiset(fs) && j < |fs|
    ensures i < |es| && es[i] == fs[j]
  {
    assert fs[j] in multiset(fs);
    i :| 0 <= i < |es| && es[i] == fs[j];
  }

  lemma DecisionsAgree(start: Content, es: seq<Event>, fs: seq<Event>, c: Content, d: Content)
    requires multiset(es) == multiset(fs) && DistinctOrders(es) && Decides(start, es, c) && Decides(start, fs, d)
    ensures c == d
  {
    if d != start {
      var j :| 0 <= j < |fs| && d == Content(fs[j].version, fs[j].text);
      var i := InBoth(es, fs, j);
      assert c != start;
      var k :| 0 <= k < |es| && c == Content(es[k].version, es[k].text);
      var l := InBoth(fs, es, k);
      assert es[i].version.order == es[k].version.order;
      assert i == k;
    } else if c != start {
      var k :| 0 <= k < |es| && c == Content(es[k].version, es[k].text);
      var l := InBoth(fs, es, k);
      assert false;
    }
  }

  /**
   * In any orderly run, whatever else happens in it, a message that stands at the end says what its revision of greatest
   * order says, or what it said before if none is greater.
   */
  lemma GreatestRevisionDecides(o: Options, w: World, steps: seq<Step>, m: nat)
    requires Sound(o, w) && Behind(w.db) && OrderlyRun(o, w, steps) && m < |w.db.messages|
    requires Standing(Execute(o, w, steps).db.messages, m)
    ensures Decides(ContentOf(w.db.messages[m]), RevisionsOf(o, w, steps, m), ContentOf(Execute(o, w, steps).db.messages[m]))
  {
    ContentIsLatest(o, w, steps, m);
    LatestDecides(ContentOf(w.db.messages[m]), RevisionsOf(o, w, steps, m));
  }

  /**
   * Arrival-order independence: two runs that plan the same revisions of a message, of distinct orders, in any order and
   * among any other work, leave it with the same version and the same text.
   */
  lemma ArrivalOrderIndependent(o: Options, w: World, steps: seq<Step>, others: seq<Step>, m: nat)
    requires Sound(o, w) && Behind(w.db) && OrderlyRun(o, w, steps) && OrderlyRun(o, w, others) && m < |w.db.messages|
    requires Standing(Execute(o, w, steps).db.messages, m) && Standing(Execute(o, w, others).db.messages, m)
    requires multiset(RevisionsOf(o, w, steps, m)) == multiset(RevisionsOf(o, w, others, m))
    requires DistinctOrders(RevisionsOf(o, w, steps, m))
    ensures ContentOf(Execute(o, w, steps).db.messages[m]) == ContentOf(Execute(o, w, others).db.messages[m])
  {
    GreatestRevisionDecides(o, w, steps, m);
    GreatestRevisionDecides(o, w, others, m);
    DecisionsAgree(ContentOf(w.db.messages[m]), RevisionsOf(o, w, steps, m), RevisionsOf(o, w, others, m),
                   ContentOf(Execute(o, w, steps).db.messages[m]), ContentOf(Execute(o, w, others).db.messages[m]));
  }
}
