/** Nothing of a deleted message comes back: late edits, late completions and waiting work cannot resurrect it. */
module Deletion {
  import opened Prelude
  import opened Domain
  import opened Database
  import opened Planning
  import opened Deliveries
  import opened Timers
  import opened Queues
  import opened QuietTransactions
  import opened Evolution
  import opened Steps
  import opened Integrity
  import opened Keys

  predicate Deleted(messages: seq<Message>, m: nat) {
    m < |messages| && messages[m].tombstone
  }

  predicate PartsBuried(messages: seq<Message>, parts: seq<Part>) {
    forall p :: 0 <= p < |parts| && Deleted(messages, parts[p].message) ==> parts[p].deleted && parts[p].sourceDeleted
  }

  /** No unsent create, edit or reaction of a deleted message waits or is held. */
  predicate RowBuried(messages: seq<Message>, r: OutboxRow) {
    r.message.Some? && Deleted(messages, r.message.value) && r.operation.Additive() ==>
      !r.state.Pending? && !r.state.Leased?
  }

  predicate WorkBuried(messages: seq<Message>, outbox: seq<OutboxRow>) {
    forall i :: 0 <= i < |outbox| ==> RowBuried(messages, outbox[i])
  }

  predicate Buried(db: Db) {
    PartsBuried(db.messages, db.parts) && WorkBuried(db.messages, db.outbox)
  }

  /** Deletion flags as before; new messages are unknown to the old rows. */
  predicate SameDeletions(a: seq<Message>, b: seq<Message>) {
    |a| <= |b| && forall m :: 0 <= m < |a| ==> b[m].tombstone == a[m].tombstone
  }

  lemma QuietKeepsWorkBuried(a: Db, b: Db)
    requires Linked(a) && WorkBuried(a.messages, a.outbox) && QuietOutbox(a.outbox, b.outbox)
    requires SameDeletions(a.messages, b.messages)
    requires forall i :: |a.outbox| <= i < |b.outbox| ==> RowBuried(b.messages, b.outbox[i])
    ensures WorkBuried(b.messages, b.outbox)
  {
    forall i | 0 <= i < |b.outbox| ensures RowBuried(b.messages, b.outbox[i]) {
      if i < |a.outbox| {
        assert QuietRow(a.outbox[i], b.outbox[i]) && RowLinked(a, i) && RowBuried(a.messages, a.outbox[i]);
      }
    }
  }

  lemma GrowthKeepsPartsBuried(a: Db, b: Db)
    requires Linked(a) && PartsBuried(a.messages, a.parts) && PartsGrow(a.parts, b.parts)
    requires SameDeletions(a.messages, b.messages)
    requires forall p :: |a.parts| <= p < |b.parts| && Deleted(b.messages, b.parts[p].message) ==>
               b.parts[p].deleted && b.parts[p].sourceDeleted
    ensures PartsBuried(b.messages, b.parts)
  {
    forall p | 0 <= p < |b.parts| && Deleted(b.messages, b.parts[p].message)
      ensures b.parts[p].deleted && b.parts[p].sourceDeleted
    {
      if p < |a.parts| {
        assert PartLinked(a, a.parts[p]) && PartGrows(a.parts[p], b.parts[p]);
      }
    }
  }

  lemma EntombBuries(db: Db, m: nat)
    requires LeaseShape(db) && Buried(db) && m < |db.messages|
    ensures Buried(Entomb(db, m)) && Deleted(Entomb(db, m).messages, m)
  {
    var b := Entomb(db, m);
    forall i | 0 <= i < |b.outbox| ensures RowBuried(b.messages, b.outbox[i]) {
      assert RowBuried(db.messages, db.outbox[i]) && OutboxShape(db.outbox[i]);
    }
  }

  // ----- planning

  lemma CreateSourceBuries(db: Db, e: Event, chat: nat, now: int)
    requires Linked(db) && Buried(db) && e.target.Some? && chat < |db.chats| && CreateSource(db, e, chat, now).Ok?
    ensures Buried(CreateSource(db, e, chat, now).value.db)
  {
    var b := CreateSource(db, e, chat, now).value.db;
    forall i | 0 <= i < |b.outbox| ensures RowBuried(b.messages, b.outbox[i]) {
      assert RowLinked(db, i) && RowBuried(db.messages, db.outbox[i]);
    }
    CreateSourceGrows(db, e, chat, now);
    GrowthKeepsPartsBuried(db, b);
  }

  lemma ReviseBuries(db: Db, p: nat, version: SourceVersion, text: Option<TextContent>)
    requires LeaseShape(db) && Buried(db) && p < |db.parts| && db.parts[p].message < |db.messages|
    ensures Buried(Revise(db, p, version, text)) && LeaseShape(Revise(db, p, version, text))
  {
    var b := Revise(db, p, version, text);
    forall i | 0 <= i < |b.outbox| ensures RowBuried(b.messages, b.outbox[i]) {
      assert RowBuried(db.messages, db.outbox[i]);
    }
  }

  lemma RevisionBuries(db: Db, e: Event, p: nat)
    requires LeaseShape(db) && Linked(db) && Buried(db) && p < |db.parts| && !Deleted(db.messages, db.parts[p].message)
    requires Buried(Revise(db, p, e.version, e.text)) && LeaseShape(Revise(db, p, e.version, e.text))
    requires db.parts[p].message < |db.messages| && ApplyRevision(db, e, p).Ok?
    ensures Buried(ApplyRevision(db, e, p).value.db)
  {
    var revised := Revise(db, p, e.version, e.text);
    var b := ApplyRevision(db, e, p).value.db;
    if b != db {
      forall i | 0 <= i < |b.outbox| ensures RowBuried(b.messages, b.outbox[i]) {
        assert RowBuried(revised.messages, revised.outbox[i]);
      }
    }
  }

  /** The plan goes on only for a standing message, or for the deletion itself. */
  lemma ApplyEventBuries(db: Db, e: Event, ds: seq<Delivery>, now: int)
    requires LeaseShape(db) && Linked(db) && Buried(db) && ApplyEvent(db, e, ds, now).Ok?
    ensures var a := ApplyEvent(db, e, ds, now).value;
      && Buried(a.db)
      && (!a.suppress && a.message.Some? && Deleted(a.db.messages, a.message.value) ==> e.kind.MessageRevoke?)
      && (a.message.Some? <==> e.target.Some?)
  {
    if e.target.Some? {
      var p := FindPart(db.parts, RefKey(e.target.value));
      if p.None? {
        CreateSourceBuries(db, e, SourceChat(db, e, ds).value, now);
      } else if e.kind.MessageRevoke? {
        ReviseBuries(db, p.value, e.version, None);
        EntombBuries(Revise(db, p.value, e.version, None), db.parts[p.value].message);
      } else if !db.messages[db.parts[p.value].message].tombstone && !e.kind.ReactionSet? {
        ReviseBuries(db, p.value, e.version, e.text);
        RevisionBuries(db, e, p.value);
      }
    }
  }

  predicate NewRowsOf(a: Db, b: Db, message: Option<nat>, kinds: set<Kind>) {
    forall i :: |a.outbox| <= i < |b.outbox| ==> b.outbox[i].message == message && b.outbox[i].operation in kinds
  }

  lemma {:induction false} InsertAllKinds(o: Options, db: Db, inbox: nat, ds: seq<Delivery>, message: Option<nat>,
                                          chat: nat, now: int, kinds: set<Kind>)
    requires InsertAll(o, db, inbox, ds, message, chat, now).Ok? && forall i :: 0 <= i < |ds| ==> ds[i].kind in kinds
    ensures NewRowsOf(db, InsertAll(o, db, inbox, ds, message, chat, now).value, message, kinds)
  {
    if ds != [] {
      InsertAllKinds(o, db, inbox, ds[..|ds| - 1], message, chat, now, kinds);
    }
  }

  lemma {:induction false} CheckedKinds(e: Event, ds: seq<Delivery>)
    requires CheckIntents(e, ds).Ok? && e.target.Some?
    ensures forall i :: 0 <= i < |ds| ==> ds[i].kind == e.kind
  {
    if ds != [] {
      CheckedKinds(e, ds[1..]);
      assert forall i :: 0 < i < |ds| ==> ds[i] == ds[1..][i - 1];
    }
  }

  lemma AppendedWorkBuried(a: Db, b: Db)
    requires Buried(a) && OnlyAppends(a, b)
    requires forall i :: |a.outbox| <= i < |b.outbox| ==> RowBuried(b.messages, b.outbox[i])
    ensures Buried(b)
  {
    forall i | 0 <= i < |b.outbox| ensures RowBuried(b.messages, b.outbox[i]) {
      assert i < |a.outbox| ==> b.outbox[i] == a.outbox[i];
    }
  }

  lemma PlanWorkBuries(o: Options, a: Applied, e: Event, inbox: nat, ds: seq<Delivery>, timers: seq<TimerSpec>, now: int)
    requires Linked(a.db) && Buried(a.db) && PlanWork(o, a, inbox, ds, timers, now).Ok?
    requires CheckIntents(e, ds).Ok? && (a.message.Some? <==> e.target.Some?)
    requires !a.suppress && a.message.Some? && Deleted(a.db.messages, a.message.value) ==> e.kind.MessageRevoke?
    ensures Buried(PlanWork(o, a, inbox, ds, timers, now).value)
  {
    if !a.suppress {
      InsertAllAppends(o, a.db, inbox, ds, a.message, a.chat, now);
      var inserted := InsertAll(o, a.db, inbox, ds, a.message, a.chat, now).value;
      ScheduleAllAppends(inserted, timers, a.message);
      var kinds := set i | 0 <= i < |ds| :: ds[i].kind;
      InsertAllKinds(o, a.db, inbox, ds, a.message, a.chat, now, kinds);
      if e.target.Some? {
        CheckedKinds(e, ds);
      }
      forall i | |a.db.outbox| <= i < |inserted.outbox| ensures RowBuried(inserted.messages, inserted.outbox[i]) {
        assert inserted.outbox[i].operation in kinds;
      }
      AppendedWorkBuried(a.db, inserted);
    }
  }

  lemma PlanStepBuries(o: Options, db: Db, s: Step)
    requires s.PlanStep? && PlanEvent(o, db, s.e, s.id, s.token, s.ds, s.timers, s.now, s.clocks).Ok?
    requires LeaseShape(db) && Linked(db) && Buried(db)
    ensures Buried(PlanEvent(o, db, s.e, s.id, s.token, s.ds, s.timers, s.now, s.clocks).value)
  {
    var fenced := Fence(s.now, s.clocks.first);
    ApplyEventBuries(db, s.e, s.ds, fenced);
    ApplyEventEvolves(db, s.e, s.ds, fenced);
    ApplyEventLinked(db, s.e, s.ds, fenced);
    PlanWorkBuries(o, ApplyEvent(db, s.e, s.ds, fenced).value, s.e, s.id, s.ds, s.timers, fenced);
  }

  // ----- completion

  lemma LinkPartBuries(parts: seq<Part>, m: nat, d: Delivery, p: DeliveredPart, version: SourceVersion, tombstone: bool)
    requires LinkPart(parts, m, d, p, version, tombstone).Ok?
    ensures var b := LinkPart(parts, m, d, p, version, tombstone).value;
      forall q :: |parts| <= q < |b| ==> b[q].message == m && (tombstone ==> b[q].deleted && b[q].sourceDeleted)
  {
  }

  lemma {:induction false} LinkPartsBury(parts: seq<Part>, m: nat, d: Delivery, chat: Chat, results: seq<DeliveredPart>,
                                         version: SourceVersion, tombstone: bool)
    requires LinkParts(parts, m, d, chat, results, version, tombstone).Ok?
    ensures var b := LinkParts(parts, m, d, chat, results, version, tombstone).value;
      forall q :: |parts| <= q < |b| ==> b[q].message == m && (tombstone ==> b[q].deleted && b[q].sourceDeleted)
  {
    if results != [] {
      var n := |results| - 1;
      LinkPartsBury(parts, m, d, chat, results[..n], version, tombstone);
      var before := LinkParts(parts, m, d, chat, results[..n], version, tombstone).value;
      var b := LinkParts(parts, m, d, chat, results, version, tombstone).value;
      LinkPartsGrow(parts, m, d, chat, results[..n], version, tombstone);
      LinkPartGrows(before, m, d, results[n], version, tombstone);
      LinkPartBuries(before, m, d, results[n], version, tombstone);
      forall q | |parts| <= q < |b| ensures b[q].message == m && (tombstone ==> b[q].deleted && b[q].sourceDeleted) {
        assert q < |before| ==> PartGrows(before[q], b[q]);
      }
    }
  }

  lemma CompletedPartsBury(parts: seq<Part>, m: nat, d: Delivery, chat: Chat, c: Completion, tombstone: bool)
    requires CompletedParts(parts, m, d, chat, c, tombstone).Ok?
    ensures var b := CompletedParts(parts, m, d, chat, c, tombstone).value;
      forall q :: |parts| <= q < |b| ==> b[q].message == m && (tombstone ==> b[q].deleted && b[q].sourceDeleted)
  {
    LinkPartsBury(parts, m, d, chat, c.parts, c.version, tombstone);
    var linked := LinkParts(parts, m, d, chat, c.parts, c.version, tombstone).value;
    LinkPartsGrow(parts, m, d, chat, c.parts, c.version, tombstone);
    var acked := AcknowledgeTarget(linked, m, d, c.version, tombstone).value;
    if (d.kind.MessageEdit? || d.kind.MessageRevoke?) && d.target.Some? {
      AcknowledgeGrows(linked, m, RefKey(d.target.value), c.version, d.kind.MessageRevoke? || tombstone);
    }
    var b := CompletedParts(parts, m, d, chat, c, tombstone).value;
    forall q | |parts| <= q < |b| ensures b[q].message == m && (tombstone ==> b[q].deleted && b[q].sourceDeleted) {
      assert PartGrows(linked[q], acked[q]);
    }
  }

  lemma CompleteStepBuries(o: Options, db: Db, s: Step)
    requires s.CompleteStep? && CompleteDelivery(o, db, s.id, s.token, s.c, s.now, s.clocks).Ok?
    requires LeaseShape(db) && Linked(db) && Buried(db)
    ensures Buried(CompleteDelivery(o, db, s.id, s.token, s.c, s.now, s.clocks).value)
  {
    var b := CompleteDelivery(o, db, s.id, s.token, s.c, s.now, s.clocks).value;
    var m := CompletionShape(db, s.id, s.c).value;
    CompletedPartsBury(db.parts, m, db.outbox[s.id].payload, db.chats[db.outbox[s.id].chat], s.c, db.messages[m].tombstone);
    CompleteDeliveryGrows(o, db, s.id, s.token, s.c, s.now, s.clocks);
    CompleteDeliveryQuiet(o, db, s.id, s.token, s.c, s.now, s.clocks);
    GrowthKeepsPartsBuried(db, b);
    QuietKeepsWorkBuried(db, b);
  }

  // ----- timers and the remaining steps

  lemma ApplyTimerBuries(o: Options, db: Db, t: Timer, ds: seq<Delivery>, now: int)
    requires LeaseShape(db) && Linked(db) && Buried(db) && HasRow(db.messages, t.message)
    requires ApplyTimer(o, db, t, ds, now).Ok?
    ensures Buried(ApplyTimer(o, db, t, ds, now).value)
  {
    var m := t.message;
    var inbox := if ds == [] then 0 else OriginInbox(db.outbox, m).value;
    InsertRevokesAppends(o, db, t, db.messages[m].chat, inbox, ds, now);
    var planned := InsertRevokes(o, db, t, db.messages[m].chat, inbox, ds, now).value;
    AppendedWorkBuried(db, planned);
    if t.kind.Expire? {
      AppendsKeepShape(db, planned);
      var emptied := EmptyText(planned, m);
      forall i | 0 <= i < |emptied.outbox| ensures RowBuried(emptied.messages, emptied.outbox[i]) {
        assert RowBuried(planned.messages, planned.outbox[i]);
      }
      EntombBuries(emptied, m);
    }
  }

  lemma OtherStepFrame(o: Options, db: Db, token: nat, s: Step)
    requires Outcome(o, db, token, s).Ok?
    requires !s.PlanStep? && !s.CompleteStep? && !s.CompleteTimerStep? && !s.TombstoneStep?
    ensures SameDeletions(db.messages, After(o, db, token, s).messages)
  {
  }

  lemma ClaimBuries(db: Db, i: nat, lease: Lease)
    requires WorkBuried(db.messages, db.outbox) && i < |db.outbox| && db.outbox[i].state.Pending?
    ensures WorkBuried(db.messages, LeaseDelivery(db, i, lease).outbox)
  {
    var b := LeaseDelivery(db, i, lease).outbox;
    forall j | 0 <= j < |b| ensures RowBuried(db.messages, b[j]) {
      assert RowBuried(db.messages, db.outbox[j]);
    }
  }

  lemma OtherWorkBuried(o: Options, db: Db, token: nat, s: Step)
    requires LeaseShape(db) && Linked(db) && WorkBuried(db.messages, db.outbox) && Outcome(o, db, token, s).Ok?
    requires !s.PlanStep? && !s.CompleteStep? && !s.CompleteTimerStep? && !s.TombstoneStep?
    ensures WorkBuried(After(o, db, token, s).messages, After(o, db, token, s).outbox)
  {
    if s.ClaimDeliveryStep? {
      ClaimBuries(db, NextDelivery(db, Fence(s.now, s.clock)).value, Lease(token, Fence(s.now, s.clock) + s.ttl));
    } else if !ClaimStep(s) {
      StepIsQuiet(o, db, token, s);
      OtherStepFrame(o, db, token, s);
      OutboxLength(o, db, token, s);
      QuietKeepsWorkBuried(db, After(o, db, token, s));
    }
  }

  lemma OtherStepBuries(o: Options, db: Db, token: nat, s: Step)
    requires LeaseShape(db) && Linked(db) && Buried(db) && Outcome(o, db, token, s).Ok?
    requires !s.PlanStep? && !s.CompleteStep? && !s.CompleteTimerStep? && !s.TombstoneStep?
    ensures Buried(After(o, db, token, s))
  {
    var b := After(o, db, token, s);
    StepGrows(o, db, token, s);
    OtherStepFrame(o, db, token, s);
    PartsLength(o, db, token, s);
    GrowthKeepsPartsBuried(db, b);
    OtherWorkBuried(o, db, token, s);
  }

  lemma TimerStepBuries(o: Options, db: Db, token: nat, s: Step)
    requires LeaseShape(db) && Linked(db) && Buried(db) && s.CompleteTimerStep? && Outcome(o, db, token, s).Ok?
    ensures Buried(After(o, db, token, s))
  {
    ApplyTimerBuries(o, db, db.timers[s.id], s.ds, Fence(s.now, s.clocks.first));
  }

  lemma TombstoneStepBuries(o: Options, db: Db, token: nat, s: Step)
    requires LeaseShape(db) && Buried(db) && s.TombstoneStep?
    ensures Buried(After(o, db, token, s))
  {
    if HasRow(db.messages, s.message) {
      EntombBuries(db, s.message);
    }
  }

  /** In every reachable state a deleted message has only deleted parts and no unsent additive work. */
  lemma StepKeepsBuried(o: Options, db: Db, token: nat, s: Step)
    requires LeaseShape(db) && Linked(db) && Buried(db)
    ensures Buried(After(o, db, token, s))
  {
    if Outcome(o, db, token, s).Ok? {
      if s.PlanStep? {
        PlanStepBuries(o, db, s);
      } else if s.CompleteStep? {
        CompleteStepBuries(o, db, s);
      } else if s.CompleteTimerStep? {
        TimerStepBuries(o, db, token, s);
      } else if s.TombstoneStep? {
        TombstoneStepBuries(o, db, token, s);
      } else {
        OtherStepBuries(o, db, token, s);
      }
    }
  }
}
