/** A sequence of checks or insertions that fails at some prefix fails as a whole, with the same error. */
module Loops {
  import opened Prelude
  import opened Domain
  import opened Database
  import opened Admission
  import opened Planning
  import opened Deliveries
  import opened Timers

  lemma {:induction false} AcceptAllFails(o: Options, inbox: seq<InboxRow>, events: seq<Event>, epoch: string, clock: int, n: nat)
    requires n <= |events| && AcceptAll(o, inbox, events[..n], epoch, clock).Err?
    ensures AcceptAll(o, inbox, events, epoch, clock) == AcceptAll(o, inbox, events[..n], epoch, clock)
    decreases |events| - n
  {
    if n < |events| {
      assert events[..n + 1][..n] == events[..n];
      AcceptAllFails(o, inbox, events, epoch, clock, n + 1);
    } else {
      assert events[..n] == events;
    }
  }

  lemma {:induction false} InsertAllFails(o: Options, db: Db, inbox: nat, ds: seq<Delivery>, message: Option<nat>,
                                          chat: nat, now: int, n: nat)
    requires n <= |ds| && InsertAll(o, db, inbox, ds[..n], message, chat, now).Err?
    ensures InsertAll(o, db, inbox, ds, message, chat, now) == InsertAll(o, db, inbox, ds[..n], message, chat, now)
    decreases |ds| - n
  {
    if n < |ds| {
      assert ds[..n + 1][..n] == ds[..n];
      InsertAllFails(o, db, inbox, ds, message, chat, now, n + 1);
    } else {
      assert ds[..n] == ds;
    }
  }

  lemma {:induction false} ScheduleAllFails(db: Db, specs: seq<TimerSpec>, message: Option<nat>, n: nat)
    requires n <= |specs| && ScheduleAll(db, specs[..n], message).Err?
    ensures ScheduleAll(db, specs, message) == ScheduleAll(db, specs[..n], message)
    decreases |specs| - n
  {
    if n < |specs| {
      assert specs[..n + 1][..n] == specs[..n];
      ScheduleAllFails(db, specs, message, n + 1);
    } else {
      assert specs[..n] == specs;
    }
  }

  lemma {:induction false} LinkPartsFails(parts: seq<Part>, m: nat, d: Delivery, chat: Chat, results: seq<DeliveredPart>,
                                          version: SourceVersion, tombstone: bool, n: nat)
    requires n <= |results| && LinkParts(parts, m, d, chat, results[..n], version, tombstone).Err?
    ensures LinkParts(parts, m, d, chat, results, version, tombstone)
            == LinkParts(parts, m, d, chat, results[..n], version, tombstone)
    decreases |results| - n
  {
    if n < |results| {
      assert results[..n + 1][..n] == results[..n];
      LinkPartsFails(parts, m, d, chat, results, version, tombstone, n + 1);
    } else {
      assert results[..n] == results;
    }
  }

  lemma {:induction false} ReserveEchoesFails(db: Db, id: nat, eventIds: seq<string>, n: nat)
    requires id < |db.outbox| && db.outbox[id].chat < |db.chats|
    requires n <= |eventIds| && ReserveEchoes(db, id, eventIds[..n]).Err?
    ensures ReserveEchoes(db, id, eventIds) == ReserveEchoes(db, id, eventIds[..n])
    decreases |eventIds| - n
  {
    if n < |eventIds| {
      assert eventIds[..n + 1][..n] == eventIds[..n];
      ReserveEchoesFails(db, id, eventIds, n + 1);
    } else {
      assert eventIds[..n] == eventIds;
    }
  }

  lemma {:induction false} InsertRevokesFails(o: Options, db: Db, t: Timer, chat: nat, inbox: nat, ds: seq<Delivery>,
                                              now: int, n: nat)
    requires n <= |ds| && InsertRevokes(o, db, t, chat, inbox, ds[..n], now).Err?
    ensures InsertRevokes(o, db, t, chat, inbox, ds, now) == InsertRevokes(o, db, t, chat, inbox, ds[..n], now)
    decreases |ds| - n
  {
    if n < |ds| {
      assert ds[..n + 1][..n] == ds[..n];
      InsertRevokesFails(o, db, t, chat, inbox, ds, now, n + 1);
    } else {
      assert ds[..n] == ds;
    }
  }
}
