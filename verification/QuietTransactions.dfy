/** Every transaction but the claims is quiet. */
module QuietTransactions {
  import opened Prelude
  import opened Domain
  import opened Database
  import opened Admission
  import opened InboxWork
  import opened Planning
  import opened Deliveries
  import opened Timers
  import opened Chats
  import opened Queues

  // ----- admission

  lemma AcceptExtends(o: Options, inbox: seq<InboxRow>, e: Event, clock: int)
    requires Accept(o, inbox, e, clock).Ok?
    ensures QuietInbox(inbox, Accept(o, inbox, e, clock).value.inbox)
    ensures inbox <= Accept(o, inbox, e, clock).value.inbox
  {
  }

  lemma {:induction false} AcceptAllExtends(o: Options, inbox: seq<InboxRow>, events: seq<Event>, epoch: string, clock: int)
    requires AcceptAll(o, inbox, events, epoch, clock).Ok?
    ensures inbox <= AcceptAll(o, inbox, events, epoch, clock).value
    ensures QuietInbox(inbox, AcceptAll(o, inbox, events, epoch, clock).value)
  {
    if events != [] {
      var n := |events| - 1;
      AcceptAllExtends(o, inbox, events[..n], epoch, clock);
      AcceptExtends(o, AcceptAll(o, inbox, events[..n], epoch, clock).value, events[n], clock);
    }
  }

  lemma ReleaseQuiet(db: Db, id: nat, state: InboxState, availableAt: int)
    requires id < |db.inbox| && db.inbox[id].state.InboxLeased? && !state.InboxLeased?
    ensures Quiet(db, ReleaseInbox(db, id, state, availableAt))
  {
  }

  // ----- planning

  lemma SupersedeQuiet(outbox: seq<OutboxRow>, m: nat, editsOnly: bool)
    ensures QuietOutbox(outbox, Supersede(outbox, m, editsOnly))
  {
  }

  predicate OnlyAppends(a: Db, b: Db) {
    a.outbox <= b.outbox && (forall i :: |a.outbox| <= i < |b.outbox| ==> FreshRow(b.outbox[i]))
    && b == a.(outbox := b.outbox)
  }

  lemma {:induction false} InsertAllAppends(o: Options, db: Db, inbox: nat, ds: seq<Delivery>, message: Option<nat>,
                                            chat: nat, now: int)
    requires InsertAll(o, db, inbox, ds, message, chat, now).Ok?
    ensures OnlyAppends(db, InsertAll(o, db, inbox, ds, message, chat, now).value)
  {
    if ds != [] {
      InsertAllAppends(o, db, inbox, ds[..|ds| - 1], message, chat, now);
    }
  }

  predicate OnlySchedules(a: Db, b: Db) {
    a.timers <= b.timers && QuietTimers(a.timers, b.timers) && b == a.(timers := b.timers)
  }

  lemma {:induction false} ScheduleAllAppends(db: Db, specs: seq<TimerSpec>, message: Option<nat>)
    requires ScheduleAll(db, specs, message).Ok?
    ensures OnlySchedules(db, ScheduleAll(db, specs, message).value)
  {
    if specs != [] {
      ScheduleAllAppends(db, specs[..|specs| - 1], message);
    }
  }

  lemma ApplyEventQuiet(db: Db, e: Event, ds: seq<Delivery>, now: int)
    requires ApplyEvent(db, e, ds, now).Ok?
    ensures var a := ApplyEvent(db, e, ds, now).value;
      QuietOutbox(db.outbox, a.db.outbox) && |a.db.outbox| == |db.outbox| && a.db.inbox == db.inbox && a.db.timers == db.timers
  {
    if e.target.Some? {
      var p := FindPart(db.parts, RefKey(e.target.value));
      if p.Some? {
        SupersedeQuiet(db.outbox, db.parts[p.value].message, e.kind.MessageEdit?);
      }
    }
  }

  lemma PlanEventQuiet(o: Options, db: Db, e: Event, inbox: int, token: nat, ds: seq<Delivery>, timers: seq<TimerSpec>,
                       now: int, clocks: Clocks)
    requires PlanEvent(o, db, e, inbox, token, ds, timers, now, clocks).Ok?
    ensures Quiet(db, PlanEvent(o, db, e, inbox, token, ds, timers, now, clocks).value)
  {
    var fenced := Fence(now, clocks.first);
    var a := ApplyEvent(db, e, ds, fenced).value;
    ApplyEventQuiet(db, e, ds, fenced);
    if !a.suppress {
      InsertAllAppends(o, a.db, inbox, ds, a.message, a.chat, fenced);
      var inserted := InsertAll(o, a.db, inbox, ds, a.message, a.chat, fenced).value;
      QuietThenAppend(db.outbox, a.db.outbox, inserted.outbox);
      ScheduleAllAppends(inserted, timers, a.message);
    }
  }

  // ----- deliveries

  lemma BeginSendQuiet(db: Db, id: int, token: nat, now: int, clocks: Clocks)
    requires LeaseShape(db) && BeginSend(db, id, token, now, clocks).Ok?
    ensures Quiet(db, BeginSend(db, id, token, now, clocks).value)
  {
  }

  lemma RecordResultFrame(db: Db, id: nat, c: Completion)
    requires id < |db.outbox| && db.outbox[id].chat < |db.chats| && RecordResult(db, id, c).Ok?
    ensures var b := RecordResult(db, id, c).value; b == db.(parts := b.parts, echoes := b.echoes)
  {
  }

  lemma FinishRowQuiet(db: Db, id: nat)
    requires id < |db.outbox| && db.outbox[id].state.Sending?
    ensures Quiet(db, FinishRow(db, id, Succeeded))
  {
  }

  lemma CompleteDeliveryQuiet(o: Options, db: Db, id: int, token: nat, c: Completion, now: int, clocks: Clocks)
    requires CompleteDelivery(o, db, id, token, c, now, clocks).Ok?
    ensures Quiet(db, CompleteDelivery(o, db, id, token, c, now, clocks).value)
  {
    RecordResultFrame(db, id, c);
    FinishRowQuiet(RecordResult(db, id, c).value, id);
  }

  lemma CompleteTopicDeliveryQuiet(db: Db, id: int, token: nat, topic: TopicRef, now: int, clocks: Clocks)
    requires CompleteTopicDelivery(db, id, token, topic, now, clocks).Ok?
    ensures Quiet(db, CompleteTopicDelivery(db, id, token, topic, now, clocks).value)
  {
    FinishRowQuiet(ApplyTopic(db, db.outbox[id].chat, db.outbox[id].payload, topic).value, id);
  }

  lemma FailDeliveryQuiet(db: Db, id: int, token: nat, d: Decision, now: int, clocks: Clocks)
    requires LeaseShape(db) && FailDelivery(db, id, token, d, now, clocks).Ok?
    ensures Quiet(db, FailDelivery(db, id, token, d, now, clocks).value)
  {
  }

  lemma RecoverQuiet(db: Db, now: int)
    requires LeaseShape(db) && RecoverExpiredLeases(db, now).Ok?
    ensures Quiet(db, RecoverExpiredLeases(db, now).value)
  {
  }

  // ----- timers

  lemma CancelQuiet(db: Db)
    ensures Quiet(db, CancelObsolete(db))
  {
  }

  lemma {:induction false} InsertRevokesAppends(o: Options, db: Db, t: Timer, chat: nat, inbox: nat, ds: seq<Delivery>,
                                                now: int)
    requires InsertRevokes(o, db, t, chat, inbox, ds, now).Ok?
    ensures var b := InsertRevokes(o, db, t, chat, inbox, ds, now).value;
      && OnlyAppends(db, b)
      && forall i :: |db.outbox| <= i < |b.outbox| ==> b.outbox[i].operation.MessageRevoke?
  {
    if ds != [] {
      InsertRevokesAppends(o, db, t, chat, inbox, ds[..|ds| - 1], now);
    }
  }

  lemma ApplyTimerQuiet(o: Options, db: Db, t: Timer, ds: seq<Delivery>, now: int)
    requires HasRow(db.messages, t.message) && ApplyTimer(o, db, t, ds, now).Ok?
    ensures var b := ApplyTimer(o, db, t, ds, now).value;
      QuietOutbox(db.outbox, b.outbox) && b.inbox == db.inbox && b.timers == db.timers
  {
    var m := t.message;
    var inbox := if ds == [] then 0 else OriginInbox(db.outbox, m).value;
    InsertRevokesAppends(o, db, t, db.messages[m].chat, inbox, ds, now);
    var planned := InsertRevokes(o, db, t, db.messages[m].chat, inbox, ds, now).value;
    SupersedeQuiet(planned.outbox, m, false);
    if t.kind.Expire? {
      AppendThenQuiet(db.outbox, planned.outbox, Supersede(planned.outbox, m, false));
    }
  }

  lemma CompleteTimerQuiet(o: Options, db: Db, id: int, token: nat, ds: seq<Delivery>, now: int, clocks: Clocks)
    requires CompleteTimer(o, db, id, token, ds, now, clocks).Ok?
    ensures Quiet(db, CompleteTimer(o, db, id, token, ds, now, clocks).value)
  {
    ApplyTimerQuiet(o, db, db.timers[id], ds, Fence(now, clocks.first));
  }

  lemma TombstoneQuiet(db: Db, m: int)
    requires TombstoneMessage(db, m).Ok?
    ensures Quiet(db, TombstoneMessage(db, m).value)
  {
    if HasRow(db.messages, m) {
      SupersedeQuiet(db.outbox, m, false);
    }
  }
}
