/** The admission caps hold in every reachable state. */
module QueueBounds {
  import opened Prelude
  import opened Domain
  import opened Database
  import opened Admission
  import opened Planning
  import opened Timers
  import opened Queues
  import opened QuietTransactions
  import opened Evolution
  import opened Steps
  import opened Integrity
  import opened Keys

  predicate ValidOptions(o: Options) {
    o.maxInboxCount > 0 && o.maxInboxBytes > 0 && o.maxOutboxCount > 0 && o.maxOutboxBytes > 0
  }

  predicate InboxBounded(o: Options, inbox: seq<InboxRow>) {
    Total(InboxCounts(inbox)) <= o.maxInboxCount && Total(InboxBytes(o, inbox)) <= o.maxInboxBytes
  }

  predicate OutboxBounded(o: Options, outbox: seq<OutboxRow>) {
    Total(OutboxCounts(outbox)) <= o.maxOutboxCount && Total(OutboxBytes(o, outbox)) <= o.maxOutboxBytes
  }

  predicate Bounded(o: Options, db: Db) {
    InboxBounded(o, db.inbox) && OutboxBounded(o, db.outbox)
  }

  // ----- inbox

  lemma AcceptKeepsBound(o: Options, inbox: seq<InboxRow>, e: Event, clock: int)
    requires InboxBounded(o, inbox) && Accept(o, inbox, e, clock).Ok?
    ensures InboxBounded(o, Accept(o, inbox, e, clock).value.inbox)
  {
    var b := Accept(o, inbox, e, clock).value.inbox;
    if b != inbox {
      assert InboxCounts(b) == InboxCounts(inbox) + [1];
      assert InboxBytes(o, b) == InboxBytes(o, inbox) + [o.eventBytes(e)];
      TotalAppend(InboxCounts(inbox), 1);
      TotalAppend(InboxBytes(o, inbox), o.eventBytes(e));
    }
  }

  lemma {:induction false} AcceptAllKeepsBound(o: Options, inbox: seq<InboxRow>, events: seq<Event>, epoch: string, clock: int)
    requires InboxBounded(o, inbox) && AcceptAll(o, inbox, events, epoch, clock).Ok?
    ensures InboxBounded(o, AcceptAll(o, inbox, events, epoch, clock).value)
  {
    if events != [] {
      var n := |events| - 1;
      AcceptAllKeepsBound(o, inbox, events[..n], epoch, clock);
      AcceptKeepsBound(o, AcceptAll(o, inbox, events[..n], epoch, clock).value, events[n], clock);
    }
  }

  lemma GrowthKeepsInboxBound(o: Options, a: Db, b: Db)
    requires InboxBounded(o, a.inbox) && QueuesGrow(a, b) && |b.inbox| == |a.inbox|
    ensures InboxBounded(o, b.inbox)
  {
    forall i | 0 <= i < |a.inbox|
      ensures InboxSize(o, b.inbox[i]) <= InboxSize(o, a.inbox[i])
      ensures InboxUnresolved(b.inbox[i]) ==> InboxUnresolved(a.inbox[i])
    {
      assert InboxRowGrows(a.inbox[i], b.inbox[i]);
    }
    TotalMonotone(InboxCounts(a.inbox), InboxCounts(b.inbox));
    TotalMonotone(InboxBytes(o, a.inbox), InboxBytes(o, b.inbox));
  }

  // ----- outbox

  lemma InsertKeepsBound(o: Options, db: Db, inbox: nat, d: Delivery, message: Option<nat>, now: int)
    requires OutboxBounded(o, db.outbox) && InsertDelivery(o, db, inbox, d, message, now).Ok?
    ensures OutboxBounded(o, InsertDelivery(o, db, inbox, d, message, now).value.outbox)
  {
    var b := InsertDelivery(o, db, inbox, d, message, now).value.outbox;
    if b != db.outbox {
      var size := o.deliveryBytes(d.(message := message));
      assert OutboxCounts(b) == OutboxCounts(db.outbox) + [1];
      assert OutboxBytes(o, b) == OutboxBytes(o, db.outbox) + [size];
      TotalAppend(OutboxCounts(db.outbox), 1);
      TotalAppend(OutboxBytes(o, db.outbox), size);
    }
  }

  lemma {:induction false} InsertAllKeepsBound(o: Options, db: Db, inbox: nat, ds: seq<Delivery>, message: Option<nat>,
                                               chat: nat, now: int)
    requires OutboxBounded(o, db.outbox) && InsertAll(o, db, inbox, ds, message, chat, now).Ok?
    ensures OutboxBounded(o, InsertAll(o, db, inbox, ds, message, chat, now).value.outbox)
  {
    if ds != [] {
      var n := |ds| - 1;
      InsertAllKeepsBound(o, db, inbox, ds[..n], message, chat, now);
      InsertKeepsBound(o, InsertAll(o, db, inbox, ds[..n], message, chat, now).value, inbox, ds[n], message, now);
    }
  }

  lemma {:induction false} InsertRevokesKeepBound(o: Options, db: Db, t: Timer, chat: nat, inbox: nat, ds: seq<Delivery>,
                                                  now: int)
    requires OutboxBounded(o, db.outbox) && InsertRevokes(o, db, t, chat, inbox, ds, now).Ok?
    ensures OutboxBounded(o, InsertRevokes(o, db, t, chat, inbox, ds, now).value.outbox)
  {
    if ds != [] {
      var n := |ds| - 1;
      InsertRevokesKeepBound(o, db, t, chat, inbox, ds[..n], now);
      InsertKeepsBound(o, InsertRevokes(o, db, t, chat, inbox, ds[..n], now).value, inbox, ds[n], Some(t.message), now);
    }
  }

  predicate LighterRow(r: OutboxRow, s: OutboxRow) {
    s.payload == r.payload && (OutboxUnresolved(s) ==> OutboxUnresolved(r))
  }

  lemma LighterKeepsBound(o: Options, a: seq<OutboxRow>, b: seq<OutboxRow>)
    requires OutboxBounded(o, a) && |b| == |a| && forall i :: 0 <= i < |a| ==> LighterRow(a[i], b[i])
    ensures OutboxBounded(o, b)
  {
    forall i | 0 <= i < |a| ensures OutboxSize(o, b[i]) <= OutboxSize(o, a[i]) {
      assert LighterRow(a[i], b[i]);
    }
    TotalMonotone(OutboxCounts(a), OutboxCounts(b));
    TotalMonotone(OutboxBytes(o, a), OutboxBytes(o, b));
  }

  lemma GrowthKeepsOutboxBound(o: Options, a: Db, b: Db)
    requires OutboxBounded(o, a.outbox) && QueuesGrow(a, b) && |b.outbox| == |a.outbox|
    ensures OutboxBounded(o, b.outbox)
  {
    forall i | 0 <= i < |a.outbox| ensures LighterRow(a.outbox[i], b.outbox[i]) {
      assert OutboxRowGrows(a.outbox[i], b.outbox[i]);
    }
    LighterKeepsBound(o, a.outbox, b.outbox);
  }

  lemma PlanKeepsBound(o: Options, db: Db, s: Step)
    requires s.PlanStep? && PlanEvent(o, db, s.e, s.id, s.token, s.ds, s.timers, s.now, s.clocks).Ok?
    requires LeaseShape(db) && OutboxBounded(o, db.outbox)
    ensures OutboxBounded(o, PlanEvent(o, db, s.e, s.id, s.token, s.ds, s.timers, s.now, s.clocks).value.outbox)
  {
    var fenced := Fence(s.now, s.clocks.first);
    var a := ApplyEvent(db, s.e, s.ds, fenced).value;
    ApplyEventEvolves(db, s.e, s.ds, fenced);
    GrowthKeepsOutboxBound(o, db, a.db);
    if !a.suppress {
      InsertAllKeepsBound(o, a.db, s.id, s.ds, a.message, a.chat, fenced);
      ScheduleAllAppends(InsertAll(o, a.db, s.id, s.ds, a.message, a.chat, fenced).value, s.timers, a.message);
    }
  }

  lemma TimerKeepsBound(o: Options, db: Db, t: Timer, ds: seq<Delivery>, now: int)
    requires OutboxBounded(o, db.outbox) && HasRow(db.messages, t.message) && ApplyTimer(o, db, t, ds, now).Ok?
    ensures OutboxBounded(o, ApplyTimer(o, db, t, ds, now).value.outbox)
  {
    var m := t.message;
    var inbox := if ds == [] then 0 else OriginInbox(db.outbox, m).value;
    InsertRevokesKeepBound(o, db, t, db.messages[m].chat, inbox, ds, now);
    var planned := InsertRevokes(o, db, t, db.messages[m].chat, inbox, ds, now).value;
    LighterKeepsBound(o, planned.outbox, Supersede(planned.outbox, m, false));
  }

  lemma StepKeepsOutboxBound(o: Options, db: Db, token: nat, s: Step)
    requires LeaseShape(db) && OutboxBounded(o, db.outbox) && Outcome(o, db, token, s).Ok?
    ensures OutboxBounded(o, After(o, db, token, s).outbox)
  {
    if s.PlanStep? {
      PlanKeepsBound(o, db, s);
    } else if s.CompleteTimerStep? {
      TimerKeepsBound(o, db, db.timers[s.id], s.ds, Fence(s.now, s.clocks.first));
    } else {
      OutboxLength(o, db, token, s);
      StepKeepsShape(o, db, token, s);
      GrowthKeepsOutboxBound(o, db, After(o, db, token, s));
    }
  }

  lemma StepKeepsInboxBound(o: Options, db: Db, token: nat, s: Step)
    requires LeaseShape(db) && InboxBounded(o, db.inbox) && Outcome(o, db, token, s).Ok?
    ensures InboxBounded(o, After(o, db, token, s).inbox)
  {
    if s.AcceptEvent? {
      AcceptKeepsBound(o, db.inbox, s.e, s.clock);
    } else if s.AcceptBatch? {
      AcceptAllKeepsBound(o, db.inbox, s.events, s.epoch, s.clock);
    } else {
      InboxLength(o, db, token, s);
      StepKeepsShape(o, db, token, s);
      GrowthKeepsInboxBound(o, db, After(o, db, token, s));
    }
  }

  /** In every reachable state the unresolved rows and their encoded sizes stay within the configured caps. */
  lemma StepKeepsBounds(o: Options, db: Db, token: nat, s: Step)
    requires LeaseShape(db) && Bounded(o, db)
    ensures Bounded(o, After(o, db, token, s))
  {
    if Outcome(o, db, token, s).Ok? {
      StepKeepsOutboxBound(o, db, token, s);
      StepKeepsInboxBound(o, db, token, s);
    }
  }

  /** Accepting a known event again succeeds with the same row and changes nothing, even when the queue is full. */
  lemma ReacceptIsIdempotent(o: Options, db: Db, e: Event, clock: int, later: Db, laterClock: int)
    requires Accept(o, db.inbox, e, clock).Ok? && UniqueInbox(db.inbox) && UniqueInbox(later.inbox)
    requires QueuesGrow(db.(inbox := Accept(o, db.inbox, e, clock).value.inbox), later)
    ensures Accept(o, later.inbox, e, laterClock) ==
            Ok(Admitted(later.inbox, Accept(o, db.inbox, e, clock).value.id, false))
  {
    var a := Accept(o, db.inbox, e, clock).value;
    assert a.inbox[a.id].payload == e && a.inbox[a.id].dedupe == AdmissionKey(e);
    assert InboxRowGrows(a.inbox[a.id], later.inbox[a.id]);
    var known := FindInbox(later.inbox, AdmissionKey(e)).value;
    assert later.inbox[known].dedupe == later.inbox[a.id].dedupe;
  }
}
