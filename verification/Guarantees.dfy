/** What the bridge promises over whole runs. */
module Guarantees {
  import opened Prelude
  import opened Domain
  import opened Database
  import opened InboxWork
  import opened Planning
  import opened Deliveries
  import opened Timers
  import opened Queues
  import opened QuietTransactions
  import opened Evolution
  import opened Steps
  import opened Integrity
  import opened Keys
  import opened Deletion
  import opened Provenance
  import opened TopicSafety
  import opened QueueBounds
  import opened Runs
  import opened Revisions

  // ----- at-most-once transmission

  /** In every run each outbox row passes BeginSend at most once, and from then on it is never waiting work again. */
  lemma BegunAtMostOnce(o: Options, steps: seq<Step>)
    requires ValidOptions(o)
    ensures var w := Execute(o, START, steps);
      && (forall j, k :: 0 <= j < k < |w.begun| ==> w.begun[j].row != w.begun[k].row)
      && forall k :: 0 <= k < |w.begun| ==>
           && w.begun[k].row < |w.db.outbox|
           && !w.db.outbox[w.begun[k].row].state.Pending? && !w.db.outbox[w.begun[k].row].state.Leased?
           && !w.db.outbox[w.begun[k].row].state.Superseded?
  {
    ReachableIsSound(o, steps);
    var w := Execute(o, START, steps);
    forall k | 0 <= k < |w.begun|
      ensures w.begun[k].row < |w.db.outbox| && OutboxShape(w.db.outbox[w.begun[k].row])
              && w.db.outbox[w.begun[k].row].startedAt.Some?
    {
      assert BegunMatches(w.db, w.begun[k]);
    }
  }

  lemma StartedIsRefused(o: Options, db: Db, token: nat, s: Step)
    requires LeaseShape(db) && s.BeginStep? && HasRow(db.outbox, s.id) && db.outbox[s.id].startedAt.Some?
    ensures Outcome(o, db, token, s).Err?
  {
    assert OutboxShape(db.outbox[s.id]);
  }

  /** Once begun, a row can never be begun again, whatever happens in between. */
  lemma BegunNeverBeginsAgain(o: Options, w: World, steps: seq<Step>, s: Step)
    requires Sound(o, w) && s.BeginStep? && HasRow(w.db.outbox, s.id) && Started(w.db.outbox, s.id)
    ensures Outcome(o, Execute(o, w, steps).db, |Execute(o, w, steps).issued|, s).Err?
  {
    RunKeepsSound(o, w, steps);
    var v := Execute(o, w, steps);
    assert OutboxRowGrows(w.db.outbox[s.id], v.db.outbox[s.id]);
    StartedIsRefused(o, v.db, |v.issued|, s);
  }

  lemma ListedOnce(list: seq<int>, x: int)
    requires x in list && forall j, k :: 0 <= j < k < |list| ==> list[j] != list[k]
    ensures exists k :: 0 <= k < |list| && list[k] == x && forall j :: 0 <= j < |list| && list[j] == x ==> j == k
  {
    var k :| 0 <= k < |list| && list[k] == x;
    assert forall j :: 0 <= j < |list| && list[j] == x ==> j == k;
  }

  /** Each event is planned at most once in a run, and the event of every outbox row was planned exactly once and is done. */
  lemma PlannedAtMostOnce(o: Options, steps: seq<Step>)
    requires ValidOptions(o)
    ensures var w := Execute(o, START, steps);
      && (forall j, k :: 0 <= j < k < |w.planned| ==> w.planned[j] != w.planned[k])
      && forall i :: 0 <= i < |w.db.outbox| ==>
           && PlannedFrom(w.db.inbox, w.db.outbox[i])
           && exists k :: 0 <= k < |w.planned| && w.planned[k] == w.db.outbox[i].inbox
                          && forall j :: 0 <= j < |w.planned| && w.planned[j] == w.db.outbox[i].inbox ==> j == k
  {
    ReachableIsSound(o, steps);
    var w := Execute(o, START, steps);
    forall i | 0 <= i < |w.db.outbox|
      ensures exists k :: 0 <= k < |w.planned| && w.planned[k] == w.db.outbox[i].inbox
                          && forall j :: 0 <= j < |w.planned| && w.planned[j] == w.db.outbox[i].inbox ==> j == k
    {
      ListedOnce(w.planned, w.db.outbox[i].inbox);
    }
  }

  // ----- fencing

  lemma {:induction false} ReleasedThroughout(o: Options, w: World, steps: seq<Step>, token: nat)
    requires Sound(o, w) && Released(w, token)
    ensures Released(Execute(o, w, steps), token)
  {
    if steps != [] {
      ReleasedThroughout(o, w, steps[..|steps| - 1], token);
      RunKeepsSound(o, w, steps[..|steps| - 1]);
      ReleasedForever(o, Execute(o, w, steps[..|steps| - 1]), steps[|steps| - 1], token);
    }
  }

  /** After a lease is released, recovered or superseded, no call that presents its token ever succeeds again. */
  lemma ReleasedTokenIsRefused(o: Options, w: World, steps: seq<Step>, token: nat, s: Step)
    requires Sound(o, w) && Released(w, token) && Presents(s).Some? && Presents(s).value.1 == token
    ensures Released(Execute(o, w, steps), token)
    ensures Outcome(o, Execute(o, w, steps).db, |Execute(o, w, steps).issued|, s).Err?
  {
    ReleasedThroughout(o, w, steps, token);
    SuccessNeedsLease(o, Execute(o, w, steps).db, |Execute(o, w, steps).issued|, s);
  }

  /** A fenced call that settles its row: every one but the begin of a send, which keeps the lease. */
  predicate Settles(s: Step) {
    Presents(s).Some? && !s.BeginStep?
  }

  lemma SettlingFrees(o: Options, db: Db, token: nat, s: Step)
    requires Settles(s) && Outcome(o, db, token, s).Ok?
    ensures Presents(s).value.0 >= 0 && LeaseOf(After(o, db, token, s), Addressed(s, Presents(s).value.0)).None?
  {
  }

  lemma SettlingReleases(o: Options, w: World, s: Step)
    requires LeaseShape(w.db) && TokensOwned(w) && Settles(s) && Outcome(o, w.db, |w.issued|, s).Ok?
    ensures Released(Apply(o, w, s), Presents(s).value.1)
  {
    SuccessNeedsLease(o, w.db, |w.issued|, s);
    SettlingFrees(o, w.db, |w.issued|, s);
    LostLeaseIsReleased(o, w, s, Addressed(s, Presents(s).value.0));
  }

  /** A lease is settled at most once: after that no call with its token succeeds, whatever else happens. */
  lemma SettledAtMostOnce(o: Options, w: World, s: Step, steps: seq<Step>, again: Step)
    requires Sound(o, w) && Settles(s) && Outcome(o, w.db, |w.issued|, s).Ok?
    requires Presents(again).Some? && Presents(again).value.1 == Presents(s).value.1
    ensures var v := Execute(o, Apply(o, w, s), steps); Outcome(o, v.db, |v.issued|, again).Err?
  {
    StepKeepsSound(o, w, s);
    SettlingReleases(o, w, s);
    ReleasedTokenIsRefused(o, Apply(o, w, s), steps, Presents(s).value.1, again);
  }

  lemma RecoveryFrees(o: Options, db: Db, token: nat, now: int, h: Holder)
    requires LeaseShape(db) && now != ZERO_TIME && LeaseOf(db, h).Some? && LeaseOf(db, h).value.until <= now
    ensures LeaseOf(After(o, db, token, RecoverStep(now)), h).None?
  {
    match h
    case InboxHolder(i) => assert InboxShape(db.inbox[i]);
    case OutboxHolder(i) => assert OutboxShape(db.outbox[i]);
    case TimerHolder(i) => assert TimerShape(db.timers[i]);
  }

  /** Recovery releases every expired lease, so its worker can no longer finish the work. */
  lemma RecoveryReleases(o: Options, w: World, now: int, h: Holder)
    requires LeaseShape(w.db) && TokensOwned(w) && now != ZERO_TIME
    requires LeaseOf(w.db, h).Some? && LeaseOf(w.db, h).value.until <= now
    ensures Released(Apply(o, w, RecoverStep(now)), LeaseOf(w.db, h).value.token)
  {
    RecoveryFrees(o, w.db, |w.issued|, now, h);
    LostLeaseIsReleased(o, w, RecoverStep(now), h);
  }

  predicate SupersededRow(outbox: seq<OutboxRow>, i: nat) {
    i < |outbox| && outbox[i].state.Superseded?
  }

  lemma SupersessionReleases(o: Options, w: World, s: Step, i: nat)
    requires LeaseShape(w.db) && TokensOwned(w) && LeaseOf(w.db, OutboxHolder(i)).Some?
    requires SupersededRow(Apply(o, w, s).db.outbox, i)
    ensures Released(Apply(o, w, s), LeaseOf(w.db, OutboxHolder(i)).value.token)
  {
    StepKeepsShape(o, w.db, |w.issued|, s);
    assert OutboxShape(Apply(o, w, s).db.outbox[i]);
    LostLeaseIsReleased(o, w, s, OutboxHolder(i));
  }

  /** A leased row that any step supersedes loses its lease, so its worker can neither begin nor settle it any more. */
  lemma SupersededIsRefused(o: Options, w: World, s: Step, i: nat, steps: seq<Step>, late: Step)
    requires Sound(o, w) && LeaseOf(w.db, OutboxHolder(i)).Some? && SupersededRow(Apply(o, w, s).db.outbox, i)
    requires Presents(late).Some? && Presents(late).value.1 == LeaseOf(w.db, OutboxHolder(i)).value.token
    ensures var v := Execute(o, Apply(o, w, s), steps); Outcome(o, v.db, |v.issued|, late).Err?
  {
    SupersessionReleases(o, w, s, i);
    StepKeepsSound(o, w, s);
    ReleasedTokenIsRefused(o, Apply(o, w, s), steps, Presents(late).value.1, late);
  }

  /** A token belongs to one row: while another row holds it, or none, a call that presents it is refused. */
  lemma ForeignTokenIsRefused(o: Options, w: World, s: Step)
    requires Sound(o, w) && Presents(s).Some? && Presents(s).value.0 >= 0 && Presents(s).value.1 < |w.issued|
    requires w.issued[Presents(s).value.1] != Addressed(s, Presents(s).value.0)
    ensures Outcome(o, w.db, |w.issued|, s).Err?
  {
    SuccessNeedsLease(o, w.db, |w.issued|, s);
  }

  /** In every reachable state rows hold leases exactly while leased or sending, and related rows are never leased together. */
  lemma LeasesAreExclusive(o: Options, steps: seq<Step>)
    requires ValidOptions(o)
    ensures var db := Execute(o, START, steps).db;
      && (forall i :: 0 <= i < |db.outbox| ==>
            (db.outbox[i].lease.Some? <==> db.outbox[i].state.Leased? || db.outbox[i].state.Sending?))
      && (forall i :: 0 <= i < |db.inbox| ==> (db.inbox[i].lease.Some? <==> db.inbox[i].state.InboxLeased?))
      && (forall i :: 0 <= i < |db.timers| ==> (db.timers[i].lease.Some? <==> db.timers[i].state.TimerLeased?))
      && (forall i, j :: 0 <= i < j < |db.inbox| && db.inbox[i].lease.Some? && db.inbox[j].lease.Some? ==>
            db.inbox[i].target != db.inbox[j].target)
      && (forall i, j :: 0 <= i < j < |db.timers| && db.timers[i].lease.Some? && db.timers[j].lease.Some? ==>
            db.timers[i].message != db.timers[j].message)
  {
    ReachableIsSound(o, steps);
    var db := Execute(o, START, steps).db;
    assert forall i :: 0 <= i < |db.outbox| ==> OutboxShape(db.outbox[i]);
    assert forall i :: 0 <= i < |db.inbox| ==> InboxShape(db.inbox[i]);
    assert forall i :: 0 <= i < |db.timers| ==> TimerShape(db.timers[i]);
  }

  // ----- timers and echoes over runs

  /** The timer of a message, kind and version keeps its deadline for ever and stays the only one. */
  lemma DeadlineNeverMoves(o: Options, w: World, steps: seq<Step>, i: nat)
    requires Sound(o, w) && i < |w.db.timers|
    ensures var a, b := w.db.timers, Execute(o, w, steps).db.timers;
      && i < |b| && TimerKey(b[i]) == TimerKey(a[i]) && b[i].deadline == a[i].deadline
      && forall j :: 0 <= j < |b| && TimerKey(b[j]) == TimerKey(a[i]) ==> j == i
  {
    RunKeepsSound(o, w, steps);
    var b := Execute(o, w, steps).db.timers;
    assert TimerGrows(w.db.timers[i], b[i]);
    assert UniqueTimers(b);
  }

  /** A begun WhatsApp send is recognized as the bridge's own echo in every later state. */
  lemma BegunStaysRecognized(o: Options, w: World, steps: seq<Step>, i: nat)
    requires Sound(o, w) && Started(w.db.outbox, i) && w.db.outbox[i].platform == WhatsApp
    ensures w.db.outbox[i].chat < |w.db.chats|
    ensures var e := ReservedEcho(w.db, i); MatchEcho(Execute(o, w, steps).db.echoes, e.key, e.target, e.digest)
  {
    RunKeepsSound(o, w, steps);
    var v := Execute(o, w, steps);
    SameOwnEcho(w.db, v.db, i);
    assert OutboxRowGrows(w.db.outbox[i], v.db.outbox[i]);
    MatchEchoExact(v.db, ReservedEcho(v.db, i).key, ReservedEcho(v.db, i).target, ReservedEcho(v.db, i).digest);
  }

  // ----- deletion

  predicate BeginsAdditive(db: Db, s: Step, m: nat) {
    s.BeginStep? && HasRow(db.outbox, s.id) && db.outbox[s.id].message == Some(m) && db.outbox[s.id].operation.Additive()
  }

  /** No create, edit or reaction of the message waits, is held or may begin. */
  ghost predicate WorkStopped(o: Options, w: World, m: nat) {
    && (forall i :: 0 <= i < |w.db.outbox| && w.db.outbox[i].message == Some(m) && w.db.outbox[i].operation.Additive() ==>
          !w.db.outbox[i].state.Pending? && !w.db.outbox[i].state.Leased?)
    && forall s: Step :: BeginsAdditive(w.db, s, m) ==> Outcome(o, w.db, |w.issued|, s).Err?
  }

  lemma AdditiveBeginIsRefused(o: Options, db: Db, token: nat, s: Step, m: nat)
    requires LeaseShape(db) && Deleted(db.messages, m) && BeginsAdditive(db, s, m)
    ensures Outcome(o, db, token, s).Err?
  {
  }

  lemma DeletionStopsWork(o: Options, w: World, m: nat)
    requires Sound(o, w) && Deleted(w.db.messages, m)
    ensures WorkStopped(o, w, m)
  {
    forall i | 0 <= i < |w.db.outbox| && w.db.outbox[i].message == Some(m) && w.db.outbox[i].operation.Additive()
      ensures !w.db.outbox[i].state.Pending? && !w.db.outbox[i].state.Leased?
    {
      assert RowBuried(w.db.messages, w.db.outbox[i]);
    }
    forall s: Step | BeginsAdditive(w.db, s, m) ensures Outcome(o, w.db, |w.issued|, s).Err? {
      AdditiveBeginIsRefused(o, w.db, |w.issued|, s, m);
    }
  }

  /**
   * A deleted message stays deleted in every continuation of the run: its parts and their source states are deleted, its
   * text can only have been emptied, and no create, edit or reaction of it can be begun any more.
   */
  lemma DeletedStaysDeleted(o: Options, w: World, steps: seq<Step>, m: nat)
    requires Sound(o, w) && Deleted(w.db.messages, m)
    ensures var v := Execute(o, w, steps);
      && Deleted(v.db.messages, m) && WorkStopped(o, v, m)
      && (v.db.messages[m].text == w.db.messages[m].text || v.db.messages[m].text == None)
      && (forall p :: 0 <= p < |v.db.parts| && v.db.parts[p].message == m ==>
            v.db.parts[p].deleted && v.db.parts[p].sourceDeleted)
  {
    RunKeepsSound(o, w, steps);
    var v := Execute(o, w, steps);
    assert MessageGrows(w.db.messages[m], v.db.messages[m]);
    DeletionStopsWork(o, v, m);
  }

  // ----- the send boundary

  /**
   * In every reachable state two rows of one message are never leased, sending or in doubt together, and neither are two
   * rows of one chat of which one has no message.
   */
  lemma InFlightApart(o: Options, steps: seq<Step>)
    requires ValidOptions(o)
    ensures var rows := Execute(o, START, steps).db.outbox;
      forall i, j :: 0 <= i < j < |rows|
                     && ((rows[i].message.Some? && rows[i].message == rows[j].message)
                         || (rows[i].chat == rows[j].chat && (rows[i].message.None? || rows[j].message.None?)))
                     && (rows[j].state.Leased? || rows[j].state.Sending? || rows[j].state.Uncertain?) ==>
        !rows[i].state.Leased? && !rows[i].state.Sending? && !rows[i].state.Uncertain?
  {
    ReachableIsSound(o, steps);
  }

  /** Around a row in flight the schedule is clear. */
  lemma FlightIsClear(outbox: seq<OutboxRow>, id: nat)
    requires Schedule(outbox) && id < |outbox|
    requires outbox[id].state.Leased? || outbox[id].state.Sending? || outbox[id].state.Uncertain?
    ensures var r := outbox[id];
      forall j :: 0 <= j < |outbox| && j != id
                  && ((r.message.Some? && outbox[j].message == r.message)
                      || (outbox[j].chat == r.chat && (outbox[j].message.None? || r.message.None?))) ==>
        && (j < id ==> outbox[j].state.Succeeded? || outbox[j].state.Dead? || outbox[j].state.Superseded?)
        && !outbox[j].state.Leased? && !outbox[j].state.Sending? && !outbox[j].state.Uncertain?
  {
  }

  /** What BeginSend checks at the boundary: the topic is current, and an edit or revoke is exactly the effective version. */
  lemma BeginIsCurrent(db: Db, id: int, token: nat, now: int, clocks: Clocks)
    requires BeginSend(db, id, token, now, clocks).Ok?
    ensures HasRow(db.outbox, id) && db.outbox[id].state.Leased? && db.outbox[id].chat < |db.chats|
    ensures var r := db.outbox[id];
      && r.generation == db.chats[r.chat].generation
      && (if r.operation.TopicCreate? then db.chats[r.chat].state.Discovered? else db.chats[r.chat].state.Active?)
      && (r.operation.MessageEdit? || r.operation.MessageRevoke? ==>
            && r.message.Some? && r.message.value < |db.messages|
            && db.messages[r.message.value].version == r.payload.version
            && (r.operation.MessageEdit? ==> !db.messages[r.message.value].tombstone))
  {
  }

  /**
   * A send that begins has overtaken nothing: every earlier row of its message, and of its chat when one of the two has
   * no message, is succeeded, dead or superseded, no such row is in flight beside it, and its dependency has succeeded.
   * Its topic is the current one, and an edit or revoke begins at exactly the effective version of its message, an edit
   * moreover only while the message stands.
   */
  lemma BeginRespectsOrder(o: Options, w: World, s: Step)
    requires Sound(o, w) && s.BeginStep? && Outcome(o, w.db, |w.issued|, s).Ok?
    ensures HasRow(w.db.outbox, s.id) && w.db.outbox[s.id].chat < |w.db.chats|
    ensures var r, outbox := w.db.outbox[s.id], w.db.outbox;
      && (forall j :: 0 <= j < |outbox| && j != s.id
                      && ((r.message.Some? && outbox[j].message == r.message)
                          || (outbox[j].chat == r.chat && (outbox[j].message.None? || r.message.None?))) ==>
            && (j < s.id ==> outbox[j].state.Succeeded? || outbox[j].state.Dead? || outbox[j].state.Superseded?)
            && !outbox[j].state.Leased? && !outbox[j].state.Sending? && !outbox[j].state.Uncertain?)
      && (r.dependsOn.Some? ==> r.dependsOn.value < |outbox| && outbox[r.dependsOn.value].state.Succeeded?)
    ensures var r, db := w.db.outbox[s.id], w.db;
      && r.generation == db.chats[r.chat].generation
      && (if r.operation.TopicCreate? then db.chats[r.chat].state.Discovered? else db.chats[r.chat].state.Active?)
      && (r.operation.MessageEdit? || r.operation.MessageRevoke? ==>
            && r.message.Some? && r.message.value < |db.messages|
            && db.messages[r.message.value].version == r.payload.version
            && (r.operation.MessageEdit? ==> !db.messages[r.message.value].tombstone))
  {
    BeginIsCurrent(w.db, s.id, s.token, s.now, s.clocks);
    FlightIsClear(w.db.outbox, s.id);
  }

  predicate SameEdited(a: Begun, b: Begun) {
    a.kind.MessageEdit? && b.kind.MessageEdit? && a.message == b.message
  }

  /** The order of a begun edit never falls behind that of an earlier begun edit of the same message. */
  predicate EditsOrdered(begun: seq<Begun>) {
    forall j, k :: 0 <= j < k < |begun| && SameEdited(begun[j], begun[k]) ==> begun[j].version.order <= begun[k].version.order
  }

  /** No begun edit is ahead of its message, unless the message has been deleted since. */
  predicate EditBehind(messages: seq<Message>, b: Begun) {
    b.kind.MessageEdit? ==>
      && b.message.Some? && b.message.value < |messages|
      && (messages[b.message.value].tombstone || b.version.order <= messages[b.message.value].version.order)
  }

  predicate PositiveOrders(messages: seq<Message>) {
    forall m :: 0 <= m < |messages| && !messages[m].tombstone ==> messages[m].version.order > 0
  }

  /** Creates and edits carry positive orders; this a caller can see before planning. */
  predicate PositiveStep(s: Step) {
    s.PlanStep? && (s.e.kind.MessageCreate? || s.e.kind.MessageEdit?) ==> s.e.version.order > 0
  }

  predicate VersionRises(a: Message, b: Message) {
    b.tombstone || b.version == a.version || b.version.order > a.version.order
  }

  predicate VersionsRise(a: seq<Message>, b: seq<Message>) {
    |a| <= |b| && forall m :: 0 <= m < |a| ==> VersionRises(a[m], b[m])
  }

  lemma RevisionRaises(db: Db, e: Event, p: nat)
    requires e.Valid() && p < |db.parts| && db.parts[p].message < |db.messages| && ApplyRevision(db, e, p).Ok?
    requires e.version.order > 0 && PositiveOrders(db.messages) && !db.messages[db.parts[p].message].tombstone
    ensures var b := ApplyRevision(db, e, p).value.db.messages; PositiveOrders(b) && VersionsRise(db.messages, b)
  {
    if !ApplyRevision(db, e, p).value.suppress {
      AcceptedOrderDrops(db, e, p);
    }
  }

  lemma PlanRaisesVersions(db: Db, e: Event, ds: seq<Delivery>, now: int)
    requires e.Valid() && ApplyEvent(db, e, ds, now).Ok? && PositiveOrders(db.messages)
    requires e.kind.MessageCreate? || e.kind.MessageEdit? ==> e.version.order > 0
    ensures var b := ApplyEvent(db, e, ds, now).value.db.messages; PositiveOrders(b) && VersionsRise(db.messages, b)
  {
    if e.target.Some? {
      var p := FindPart(db.parts, RefKey(e.target.value));
      if p.Some? && !db.messages[db.parts[p.value].message].tombstone && (e.kind.MessageCreate? || e.kind.MessageEdit?) {
        RevisionRaises(db, e, p.value);
      }
    }
  }

  lemma PlanStepRaises(o: Options, db: Db, s: Step)
    requires PositiveOrders(db.messages) && PositiveStep(s)
    requires s.PlanStep? && PlanEvent(o, db, s.e, s.id, s.token, s.ds, s.timers, s.now, s.clocks).Ok?
    ensures var b := PlanEvent(o, db, s.e, s.id, s.token, s.ds, s.timers, s.now, s.clocks).value.messages;
      PositiveOrders(b) && VersionsRise(db.messages, b)
  {
    PlanKeepsSources(o, db, PlanCall(s.e, s.id, s.token, s.ds, s.timers, s.now, s.clocks));
    PlanRaisesVersions(db, s.e, s.ds, Fence(s.now, s.clocks.first));
  }

  lemma OtherStepRaises(o: Options, db: Db, token: nat, s: Step)
    requires PositiveOrders(db.messages) && !s.PlanStep? && !s.CompleteTimerStep?
    ensures PositiveOrders(After(o, db, token, s).messages) && VersionsRise(db.messages, After(o, db, token, s).messages)
  {
    if SendStep(s) {
      SendStepFrame(o, db, token, s);
    } else if ChatStep(s) {
      ChatStepFrame(o, db, token, s);
    }
  }

  lemma TimerMessages(o: Options, db: Db, t: Timer, ds: seq<Delivery>, now: int)
    requires HasRow(db.messages, t.message) && ApplyTimer(o, db, t, ds, now).Ok?
    ensures var b := ApplyTimer(o, db, t, ds, now).value;
      b.messages == db.messages || (t.message < |db.messages|
      && b.messages == db.messages[t.message := db.messages[t.message].(tombstone := true, text := None)])
  {
    var m := t.message;
    var inbox := if ds == [] then 0 else OriginInbox(db.outbox, m).value;
    InsertRevokesAppends(o, db, t, db.messages[m].chat, inbox, ds, now);
  }

  lemma StepRaisesVersions(o: Options, db: Db, token: nat, s: Step)
    requires PositiveOrders(db.messages) && PositiveStep(s)
    ensures PositiveOrders(After(o, db, token, s).messages) && VersionsRise(db.messages, After(o, db, token, s).messages)
  {
    if s.PlanStep? {
      if PlanEvent(o, db, s.e, s.id, s.token, s.ds, s.timers, s.now, s.clocks).Ok? {
        PlanStepRaises(o, db, s);
      }
    } else if s.CompleteTimerStep? {
      if CompleteTimer(o, db, s.id, s.token, s.ds, s.now, s.clocks).Ok? {
        TimerMessages(o, db, db.timers[s.id], s.ds, Fence(s.now, s.clocks.first));
      }
    } else {
      OtherStepRaises(o, db, token, s);
    }
  }

  predicate EditsSound(w: World) {
    && PositiveOrders(w.db.messages) && EditsOrdered(w.begun)
    && forall k :: 0 <= k < |w.begun| ==> EditBehind(w.db.messages, w.begun[k])
  }

  lemma RisingKeepsEditBehind(a: seq<Message>, b: seq<Message>, x: Begun)
    requires EditBehind(a, x) && VersionsRise(a, b) && MessagesGrow(a, b)
    ensures EditBehind(b, x)
  {
    if x.kind.MessageEdit? {
      assert VersionRises(a[x.message.value], b[x.message.value]) && MessageGrows(a[x.message.value], b[x.message.value]);
    }
  }

  lemma BegunEditIsAhead(w: World, b: Begun)
    requires EditsSound(w) && b.kind.MessageEdit? && b.message.Some? && b.message.value < |w.db.messages|
    requires !w.db.messages[b.message.value].tombstone && w.db.messages[b.message.value].version == b.version
    ensures EditsOrdered(w.begun + [b]) && EditBehind(w.db.messages, b)
  {
    forall k | 0 <= k < |w.begun| && SameEdited(w.begun[k], b) ensures w.begun[k].version.order <= b.version.order {
      assert EditBehind(w.db.messages, w.begun[k]);
    }
  }

  lemma BegunIsEffective(o: Options, w: World, s: Step)
    requires Sound(o, w) && s.BeginStep? && Outcome(o, w.db, |w.issued|, s).Ok?
    ensures HasRow(w.db.outbox, s.id)
    ensures var b := BegunRow(w.db, s.id);
      b.kind.MessageEdit? ==>
        && b.message.Some? && b.message.value < |w.db.messages|
        && !w.db.messages[b.message.value].tombstone && w.db.messages[b.message.value].version == b.version
  {
    BeginRespectsOrder(o, w, s);
  }

  lemma AppendKeepsOrdered(begun: seq<Begun>, b: Begun)
    requires EditsOrdered(begun) && !b.kind.MessageEdit?
    ensures EditsOrdered(begun + [b])
  {
  }

  lemma BeginKeepsEdits(o: Options, w: World, s: Step)
    requires Sound(o, w) && EditsSound(w) && s.BeginStep? && Outcome(o, w.db, |w.issued|, s).Ok?
    ensures HasRow(w.db.outbox, s.id)
    ensures EditsOrdered(w.begun + [BegunRow(w.db, s.id)]) && EditBehind(w.db.messages, BegunRow(w.db, s.id))
  {
    BegunIsEffective(o, w, s);
    if BegunRow(w.db, s.id).kind.MessageEdit? {
      BegunEditIsAhead(w, BegunRow(w.db, s.id));
    } else {
      AppendKeepsOrdered(w.begun, BegunRow(w.db, s.id));
    }
  }

  lemma BegunStayBehind(a: seq<Message>, b: seq<Message>, begun: seq<Begun>)
    requires VersionsRise(a, b) && MessagesGrow(a, b)
    requires forall k :: 0 <= k < |begun| ==> EditBehind(a, begun[k])
    ensures forall k :: 0 <= k < |begun| ==> EditBehind(b, begun[k])
  {
    forall k | 0 <= k < |begun| ensures EditBehind(b, begun[k]) {
      RisingKeepsEditBehind(a, b, begun[k]);
    }
  }

  lemma GrowthKeepsEdits(w: World, v: World)
    requires EditsSound(w) && PositiveOrders(v.db.messages)
    requires VersionsRise(w.db.messages, v.db.messages) && MessagesGrow(w.db.messages, v.db.messages)
    requires v.begun == w.begun || (|v.begun| == |w.begun| + 1 && v.begun[..|w.begun|] == w.begun && EditsOrdered(v.begun)
                                    && EditBehind(w.db.messages, v.begun[|w.begun|]))
    ensures EditsSound(v)
  {
    BegunStayBehind(w.db.messages, v.db.messages, v.begun);
  }

  lemma StepKeepsEdits(o: Options, w: World, s: Step)
    requires Sound(o, w) && EditsSound(w) && PositiveStep(s)
    ensures EditsSound(Apply(o, w, s))
  {
    StepRaisesVersions(o, w.db, |w.issued|, s);
    StepGrows(o, w.db, |w.issued|, s);
    if s.BeginStep? && Outcome(o, w.db, |w.issued|, s).Ok? {
      BeginKeepsEdits(o, w, s);
    }
    GrowthKeepsEdits(w, Apply(o, w, s));
  }

  lemma NextStepKeepsEdits(o: Options, steps: seq<Step>, s: Step)
    requires ValidOptions(o) && EditsSound(Execute(o, START, steps)) && PositiveStep(s)
    ensures EditsSound(Apply(o, Execute(o, START, steps), s))
  {
    ReachableIsSound(o, steps);
    StepKeepsEdits(o, Execute(o, START, steps), s);
  }

  /** With positive orders, the orders of the edits begun for one message never decrease along a run. */
  lemma {:induction false} EditsNeverGoBack(o: Options, steps: seq<Step>)
    requires ValidOptions(o) && forall i :: 0 <= i < |steps| ==> PositiveStep(steps[i])
    ensures EditsSound(Execute(o, START, steps))
  {
    if steps != [] {
      EditsNeverGoBack(o, steps[..|steps| - 1]);
      NextStepKeepsEdits(o, steps[..|steps| - 1], steps[|steps| - 1]);
    }
  }

  // ----- topic generations

  /** A row of a replaced topic is fenced off for the rest of the run. */
  lemma OutdatedStaysFenced(o: Options, w: World, steps: seq<Step>, i: nat, s: Step)
    requires Sound(o, w) && Outdated(w.db, i)
    ensures var v := Execute(o, w, steps);
      && Outdated(v.db, i)
      && (Outcome(o, v.db, |v.issued|, s).Ok? ==>
            && (s.ClaimDeliveryStep? ==> ClaimDelivery(v.db, |v.issued|, s.now, s.ttl, s.clock).value.id != i)
            && (s.BeginStep? || s.CompleteStep? || s.CompleteTopicStep? ==> s.id != i))
  {
    RunKeepsSound(o, w, steps);
    var v := Execute(o, w, steps);
    OutdatedForever(w.db, v.db, i);
    if Outcome(o, v.db, |v.issued|, s).Ok? {
      OutdatedIsFenced(o, v.db, |v.issued|, s, i);
    }
  }

  // ----- chat locality

  /** All parts of a message on one platform name the same native chat, that of the chat the message is bound to. */
  lemma PartsStayInOneChat(o: Options, steps: seq<Step>, p: nat, q: nat)
    requires ValidOptions(o)
    requires var db := Execute(o, START, steps).db;
      p < |db.parts| && q < |db.parts| && db.parts[p].message == db.parts[q].message
      && db.parts[p].key.platform == db.parts[q].key.platform
    ensures var db := Execute(o, START, steps).db; db.parts[p].key.chat == db.parts[q].key.chat
  {
    ReachableIsSound(o, steps);
    var db := Execute(o, START, steps).db;
    assert PartLinked(db, db.parts[p]) && PartLinked(db, db.parts[q]);
  }

  // ----- progress

  /** Nothing is in flight or blocked, and every waiting row is due, current and not cut off from its dependency. */
  predicate Quiescent(db: Db, now: int) {
    forall i :: 0 <= i < |db.outbox| ==>
      var r := db.outbox[i];
      && !Busy(r) && !r.state.Blocked?
      && (r.state.Pending? ==>
            && r.availableAt <= now && Current(db, r)
            && (r.dependsOn.Some? && r.dependsOn.value < |db.outbox| ==>
                  !db.outbox[r.dependsOn.value].state.Dead? && !db.outbox[r.dependsOn.value].state.Superseded?))
  }

  /** The scheduler never stalls needlessly: in a quiescent store a claim returns the smallest waiting row. */
  lemma QuiescentClaimReturnsOldest(db: Db, i: nat, token: nat, now: int, ttl: int, clock: int)
    requires Linked(db) && ValidLease(now, ttl) && Quiescent(db, Fence(now, clock))
    requires i < |db.outbox| && db.outbox[i].state.Pending?
    requires forall j :: 0 <= j < i ==> !db.outbox[j].state.Pending?
    ensures ClaimDelivery(db, token, now, ttl, clock).Ok? && ClaimDelivery(db, token, now, ttl, clock).value.id == i
  {
    assert RowLinked(db, i);
    assert Eligible(db, i, Fence(now, clock));
  }
}
