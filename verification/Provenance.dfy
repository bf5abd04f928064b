/** Every outbox row comes from an admitted event whose plan committed, and echo rows belong to started sends. */
module Provenance {
  import opened Prelude
  import opened Domain
  import opened Database
  import opened Planning
  import opened Deliveries
  import opened Timers
  import opened Queues
  import opened QuietTransactions
  import opened Evolution
  import opened Steps
  import opened Integrity
  import opened Keys

  // ----- origins

  predicate PlannedFrom(inbox: seq<InboxRow>, r: OutboxRow) {
    r.inbox < |inbox| && inbox[r.inbox].state.InboxDone?
  }

  /** The event of every outbox row is done: its plan committed, and it can never be planned again. */
  predicate Originated(db: Db) {
    forall i :: 0 <= i < |db.outbox| ==> PlannedFrom(db.inbox, db.outbox[i])
  }

  lemma GrowthKeepsOrigins(a: Db, b: Db)
    requires Originated(a) && QueuesGrow(a, b)
    requires forall i :: |a.outbox| <= i < |b.outbox| ==> PlannedFrom(b.inbox, b.outbox[i])
    ensures Originated(b)
  {
    forall i | 0 <= i < |b.outbox| ensures PlannedFrom(b.inbox, b.outbox[i]) {
      if i < |a.outbox| {
        assert OutboxRowGrows(a.outbox[i], b.outbox[i]) && PlannedFrom(a.inbox, a.outbox[i]);
        assert InboxRowGrows(a.inbox[a.outbox[i].inbox], b.inbox[a.outbox[i].inbox]);
      }
    }
  }

  lemma {:induction false} InsertAllOrigin(o: Options, db: Db, inbox: nat, ds: seq<Delivery>, message: Option<nat>,
                                           chat: nat, now: int)
    requires InsertAll(o, db, inbox, ds, message, chat, now).Ok?
    ensures var b := InsertAll(o, db, inbox, ds, message, chat, now).value;
      forall i :: |db.outbox| <= i < |b.outbox| ==> b.outbox[i].inbox == inbox
  {
    if ds != [] {
      InsertAllOrigin(o, db, inbox, ds[..|ds| - 1], message, chat, now);
    }
  }

  lemma {:induction false} InsertRevokesOrigin(o: Options, db: Db, t: Timer, chat: nat, inbox: nat, ds: seq<Delivery>,
                                               now: int)
    requires InsertRevokes(o, db, t, chat, inbox, ds, now).Ok?
    ensures var b := InsertRevokes(o, db, t, chat, inbox, ds, now).value;
      forall i :: |db.outbox| <= i < |b.outbox| ==> b.outbox[i].inbox == inbox && ds != []
  {
    if ds != [] {
      InsertRevokesOrigin(o, db, t, chat, inbox, ds[..|ds| - 1], now);
    }
  }

  lemma PlanStepOrigin(o: Options, db: Db, s: Step)
    requires s.PlanStep? && PlanEvent(o, db, s.e, s.id, s.token, s.ds, s.timers, s.now, s.clocks).Ok?
    ensures var b := PlanEvent(o, db, s.e, s.id, s.token, s.ds, s.timers, s.now, s.clocks).value;
      forall i :: |db.outbox| <= i < |b.outbox| ==> PlannedFrom(b.inbox, b.outbox[i]) && b.outbox[i].inbox == s.id
  {
    var fenced := Fence(s.now, s.clocks.first);
    var a := ApplyEvent(db, s.e, s.ds, fenced).value;
    ApplyEventQuiet(db, s.e, s.ds, fenced);
    PlanWorkFrame(o, a, s.id, s.ds, s.timers, fenced);
    if !a.suppress {
      InsertAllOrigin(o, a.db, s.id, s.ds, a.message, a.chat, fenced);
      ScheduleAllAppends(InsertAll(o, a.db, s.id, s.ds, a.message, a.chat, fenced).value, s.timers, a.message);
    }
  }

  /** The row was planned from the same event as an older one. */
  predicate SharesInbox(outbox: seq<OutboxRow>, r: OutboxRow) {
    exists j :: 0 <= j < |outbox| && outbox[j].inbox == r.inbox
  }

  lemma TimerStepOrigin(o: Options, db: Db, t: Timer, ds: seq<Delivery>, now: int)
    requires Originated(db) && HasRow(db.messages, t.message) && ApplyTimer(o, db, t, ds, now).Ok?
    ensures var b := ApplyTimer(o, db, t, ds, now).value;
      forall i :: |db.outbox| <= i < |b.outbox| ==> PlannedFrom(b.inbox, b.outbox[i]) && SharesInbox(db.outbox, b.outbox[i])
  {
    var m := t.message;
    var inbox := if ds == [] then 0 else OriginInbox(db.outbox, m).value;
    InsertRevokesOrigin(o, db, t, db.messages[m].chat, inbox, ds, now);
    InsertRevokesAppends(o, db, t, db.messages[m].chat, inbox, ds, now);
    if ds != [] {
      assert PlannedFrom(db.inbox, db.outbox[FirstIndex(db.outbox, (r: OutboxRow) => r.message == Some(m)).value]);
    }
  }

  lemma NewRowsHaveOrigins(o: Options, db: Db, token: nat, s: Step)
    requires Originated(db) && Outcome(o, db, token, s).Ok?
    ensures var b := After(o, db, token, s);
      forall i :: |db.outbox| <= i < |b.outbox| ==>
        PlannedFrom(b.inbox, b.outbox[i])
        && if s.PlanStep? then b.outbox[i].inbox == s.id else SharesInbox(db.outbox, b.outbox[i])
  {
    match s
    case PlanStep(e, id, t, ds, timers, now, clocks) => PlanStepOrigin(o, db, s);
    case CompleteTimerStep(id, t, ds, now, clocks) =>
      TimerStepOrigin(o, db, db.timers[id], ds, Fence(now, clocks.first));
    case _ => OutboxLength(o, db, token, s);
  }

  lemma StepKeepsOrigins(o: Options, db: Db, token: nat, s: Step)
    requires LeaseShape(db) && Originated(db)
    ensures Originated(After(o, db, token, s))
  {
    if Outcome(o, db, token, s).Ok? {
      StepKeepsShape(o, db, token, s);
      NewRowsHaveOrigins(o, db, token, s);
      GrowthKeepsOrigins(db, After(o, db, token, s));
    }
  }

  // ----- echoes

  predicate Started(outbox: seq<OutboxRow>, i: nat) {
    i < |outbox| && outbox[i].startedAt.Some?
  }

  /** An echo row carries the identity of the started row it belongs to. */
  predicate EchoExplained(db: Db, e: Echo) {
    && Started(db.outbox, e.outbox) && db.outbox[e.outbox].chat < |db.chats|
    && e.key == OwnEcho(db, db.outbox[e.outbox], e.key.eventId)
    && e.target == TargetOf(db.outbox[e.outbox].payload) && e.digest == db.outbox[e.outbox].payload.version.digest
  }

  /** A started WhatsApp row has its exact tuple reserved. */
  predicate Reserved(db: Db, i: nat)
    requires i < |db.outbox| && db.outbox[i].chat < |db.chats|
  {
    Started(db.outbox, i) && db.outbox[i].platform == WhatsApp ==> ReservedEcho(db, i) in db.echoes
  }

  predicate EchoExact(db: Db) {
    && (forall i :: 0 <= i < |db.outbox| ==> db.outbox[i].chat < |db.chats| && Reserved(db, i))
    && (forall e :: 0 <= e < |db.echoes| ==> EchoExplained(db, db.echoes[e]))
  }

  lemma SameOwnEcho(a: Db, b: Db, i: nat)
    requires Evolves(a, b) && i < |a.outbox| && a.outbox[i].chat < |a.chats|
    ensures b.outbox[i].chat < |b.chats| && ReservedEcho(b, i) == ReservedEcho(a, i)
    ensures forall id :: OwnEcho(b, b.outbox[i], id) == OwnEcho(a, a.outbox[i], id)
  {
    assert OutboxRowGrows(a.outbox[i], b.outbox[i]) && ChatGrows(a.chats[a.outbox[i].chat], b.chats[a.outbox[i].chat]);
  }

  lemma GrowthKeepsExplained(a: Db, b: Db, e: Echo)
    requires Evolves(a, b) && EchoExplained(a, e)
    ensures EchoExplained(b, e)
  {
    SameOwnEcho(a, b, e.outbox);
    assert OutboxRowGrows(a.outbox[e.outbox], b.outbox[e.outbox]);
  }

  /** Rows that did not just start keep their reservation; a new start must bring its own. */
  lemma GrowthKeepsEchoes(a: Db, b: Db)
    requires EchoExact(a) && Evolves(a, b) && Linked(b)
    requires forall i :: 0 <= i < |b.outbox| && Started(b.outbox, i) && !Started(a.outbox, i) ==>
               b.outbox[i].chat < |b.chats| && Reserved(b, i)
    requires forall e :: |a.echoes| <= e < |b.echoes| ==> EchoExplained(b, b.echoes[e])
    ensures EchoExact(b)
  {
    forall i | 0 <= i < |b.outbox| ensures b.outbox[i].chat < |b.chats| && Reserved(b, i) {
      assert RowLinked(b, i);
      if Started(a.outbox, i) {
        assert OutboxRowGrows(a.outbox[i], b.outbox[i]) && Reserved(a, i);
        SameOwnEcho(a, b, i);
        assert forall e :: e in a.echoes ==> e in b.echoes;
      }
    }
    forall e | 0 <= e < |b.echoes| ensures EchoExplained(b, b.echoes[e]) {
      if e < |a.echoes| {
        GrowthKeepsExplained(a, b, a.echoes[e]);
      }
    }
  }

  lemma BeginReserves(db: Db, id: int, token: nat, now: int, clocks: Clocks)
    requires Linked(db) && BeginSend(db, id, token, now, clocks).Ok?
    ensures var b := BeginSend(db, id, token, now, clocks).value;
      && (forall i :: 0 <= i < |b.outbox| && Started(b.outbox, i) && !Started(db.outbox, i) ==>
            b.outbox[i].chat < |b.chats| && Reserved(b, i))
      && (forall e :: |db.echoes| <= e < |b.echoes| ==> EchoExplained(b, b.echoes[e]))
  {
    var b := BeginSend(db, id, token, now, clocks).value;
    assert RowLinked(db, id);
    assert ReservedEcho(b, id) == ReservedEcho(db, id);
    assert b.outbox[id].platform == b.outbox[id].payload.platform;
    if b.outbox[id].platform == WhatsApp {
      assert b.echoes[|db.echoes|] == ReservedEcho(db, id);
    }
  }

  lemma {:induction false} ReserveEchoesExplained(db: Db, id: nat, eventIds: seq<string>)
    requires id < |db.outbox| && db.outbox[id].chat < |db.chats| && Started(db.outbox, id)
    requires ReserveEchoes(db, id, eventIds).Ok?
    ensures var b := ReserveEchoes(db, id, eventIds).value;
      db.echoes <= b && forall e :: |db.echoes| <= e < |b| ==> EchoExplained(db, b[e])
  {
    if eventIds != [] {
      ReserveEchoesExplained(db, id, eventIds[..|eventIds| - 1]);
    }
  }

  lemma CompleteExplains(o: Options, db: Db, id: int, token: nat, c: Completion, now: int, clocks: Clocks)
    requires LeaseShape(db) && CompleteDelivery(o, db, id, token, c, now, clocks).Ok?
    requires Evolves(db, CompleteDelivery(o, db, id, token, c, now, clocks).value)
    ensures var b := CompleteDelivery(o, db, id, token, c, now, clocks).value;
      forall e :: |db.echoes| <= e < |b.echoes| ==> EchoExplained(b, b.echoes[e])
  {
    var b := CompleteDelivery(o, db, id, token, c, now, clocks).value;
    assert OutboxShape(db.outbox[id]);
    ReserveEchoesExplained(db, id, c.echoKeys);
    forall e | |db.echoes| <= e < |b.echoes| ensures EchoExplained(b, b.echoes[e]) {
      GrowthKeepsExplained(db, b, b.echoes[e]);
    }
  }

  lemma ApplyEventStarts(db: Db, e: Event, ds: seq<Delivery>, now: int, i: nat)
    requires ApplyEvent(db, e, ds, now).Ok? && i < |db.outbox|
    ensures var b := ApplyEvent(db, e, ds, now).value.db;
      |b.outbox| == |db.outbox| && b.outbox[i].startedAt == db.outbox[i].startedAt
  {
  }

  lemma PlanStarts(o: Options, db: Db, s: Step, i: nat)
    requires s.PlanStep? && PlanEvent(o, db, s.e, s.id, s.token, s.ds, s.timers, s.now, s.clocks).Ok?
    requires i < |db.outbox| && db.outbox[i].startedAt.None?
    ensures var b := PlanEvent(o, db, s.e, s.id, s.token, s.ds, s.timers, s.now, s.clocks).value;
      i < |b.outbox| && b.outbox[i].startedAt.None?
  {
    var fenced := Fence(s.now, s.clocks.first);
    var a := ApplyEvent(db, s.e, s.ds, fenced).value;
    ApplyEventStarts(db, s.e, s.ds, fenced, i);
    if !a.suppress {
      InsertAllAppends(o, a.db, s.id, s.ds, a.message, a.chat, fenced);
      var inserted := InsertAll(o, a.db, s.id, s.ds, a.message, a.chat, fenced).value;
      ScheduleAllAppends(inserted, s.timers, a.message);
      assert inserted.outbox[i] == a.db.outbox[i];
    }
  }

  lemma TimerStarts(o: Options, db: Db, t: Timer, ds: seq<Delivery>, now: int, i: nat)
    requires HasRow(db.messages, t.message) && ApplyTimer(o, db, t, ds, now).Ok?
    requires i < |db.outbox| && db.outbox[i].startedAt.None?
    ensures var b := ApplyTimer(o, db, t, ds, now).value; i < |b.outbox| && b.outbox[i].startedAt.None?
  {
    var m := t.message;
    var inbox := if ds == [] then 0 else OriginInbox(db.outbox, m).value;
    InsertRevokesAppends(o, db, t, db.messages[m].chat, inbox, ds, now);
    var planned := InsertRevokes(o, db, t, db.messages[m].chat, inbox, ds, now).value;
    assert planned.outbox[i] == db.outbox[i];
  }

  /** Only a begin moves a leased row to sending. */
  lemma NoLeasedToSending(o: Options, db: Db, token: nat, s: Step, i: nat)
    requires LeaseShape(db) && !s.BeginStep? && !ClaimStep(s) && Outcome(o, db, token, s).Ok?
    requires i < |db.outbox| && i < |After(o, db, token, s).outbox| && db.outbox[i].startedAt.None?
    ensures After(o, db, token, s).outbox[i].startedAt.None?
  {
    match s
    case PlanStep(e, id, t, ds, timers, now, clocks) => PlanStarts(o, db, s, i);
    case CompleteStep(id, t, c, now, clocks) => RecordResultFrame(db, id, c);
    case CompleteTimerStep(id, t, ds, now, clocks) =>
      TimerStarts(o, db, db.timers[id], ds, Fence(now, clocks.first), i);
    case _ =>
      if ChatStep(s) {
        ChatStepFrame(o, db, token, s);
      }
  }

  lemma NoNewStarts(o: Options, db: Db, token: nat, s: Step)
    requires LeaseShape(db) && !s.BeginStep?
    ensures var b := After(o, db, token, s);
      forall i :: Started(b.outbox, i) ==> Started(db.outbox, i)
  {
    var b := After(o, db, token, s);
    if Outcome(o, db, token, s).Ok? && !ClaimStep(s) {
      StepIsQuiet(o, db, token, s);
      forall i: nat | Started(b.outbox, i) ensures Started(db.outbox, i) {
        assert i < |db.outbox| ==> QuietRow(db.outbox[i], b.outbox[i]);
        if i < |db.outbox| && !Started(db.outbox, i) {
          NoLeasedToSending(o, db, token, s, i);
        }
      }
    }
  }

  lemma StepReserves(o: Options, db: Db, token: nat, s: Step)
    requires LeaseShape(db) && Linked(db)
    ensures var b := After(o, db, token, s);
      forall i :: 0 <= i < |b.outbox| && Started(b.outbox, i) && !Started(db.outbox, i) ==>
        b.outbox[i].chat < |b.chats| && Reserved(b, i)
  {
    if s.BeginStep? {
      if BeginSend(db, s.id, s.token, s.now, s.clocks).Ok? {
        BeginReserves(db, s.id, s.token, s.now, s.clocks);
      }
    } else {
      NoNewStarts(o, db, token, s);
    }
  }

  lemma StepExplains(o: Options, db: Db, token: nat, s: Step)
    requires LeaseShape(db) && Linked(db) && Evolves(db, After(o, db, token, s))
    ensures var b := After(o, db, token, s);
      forall e :: |db.echoes| <= e < |b.echoes| ==> EchoExplained(b, b.echoes[e])
  {
    if s.BeginStep? {
      if BeginSend(db, s.id, s.token, s.now, s.clocks).Ok? {
        BeginReserves(db, s.id, s.token, s.now, s.clocks);
      }
    } else if s.CompleteStep? {
      if CompleteDelivery(o, db, s.id, s.token, s.c, s.now, s.clocks).Ok? {
        CompleteExplains(o, db, s.id, s.token, s.c, s.now, s.clocks);
      }
    } else {
      EchoesFrame(o, db, token, s);
    }
  }

  /** In every reachable state started WhatsApp rows and their echo reservations match exactly. */
  lemma StepKeepsEchoExact(o: Options, db: Db, token: nat, s: Step)
    requires LeaseShape(db) && Linked(db) && EchoExact(db)
    ensures EchoExact(After(o, db, token, s))
  {
    StepKeepsShape(o, db, token, s);
    StepKeepsLinks(o, db, token, s);
    StepReserves(o, db, token, s);
    StepExplains(o, db, token, s);
    GrowthKeepsEchoes(db, After(o, db, token, s));
  }

  // ----- what the reservations mean for callers

  /** `MatchEcho` accepts exactly the tuples some started row of this store has reserved. */
  lemma MatchEchoExact(db: Db, key: EchoKey, target: Option<Key>, digest: string)
    requires EchoExact(db)
    ensures MatchEcho(db.echoes, key, target, digest) ==>
              exists i :: 0 <= i < |db.outbox| && Started(db.outbox, i) && db.outbox[i].chat < |db.chats|
                          && key == OwnEcho(db, db.outbox[i], key.eventId)
                          && target == TargetOf(db.outbox[i].payload) && digest == db.outbox[i].payload.version.digest
    ensures forall i :: 0 <= i < |db.outbox| && Started(db.outbox, i) && db.outbox[i].platform == WhatsApp ==>
              var e := ReservedEcho(db, i); MatchEcho(db.echoes, e.key, e.target, e.digest)
  {
    if MatchEcho(db.echoes, key, target, digest) {
      var e :| 0 <= e < |db.echoes| && db.echoes[e].key == key && db.echoes[e].target == target
               && db.echoes[e].digest == digest;
      assert EchoExplained(db, db.echoes[e]);
      assert Started(db.outbox, db.echoes[e].outbox);
    }
    forall i | 0 <= i < |db.outbox| && Started(db.outbox, i) && db.outbox[i].platform == WhatsApp
      ensures var e := ReservedEcho(db, i); MatchEcho(db.echoes, e.key, e.target, e.digest)
    {
      assert Reserved(db, i);
      var e :| 0 <= e < |db.echoes| && db.echoes[e] == ReservedEcho(db, i);
    }
  }

  /** The echo key a worker passes at completion is the row's own send id: it never conflicts and adds nothing. */
  lemma OwnEchoNeverConflicts(db: Db, id: nat)
    requires Linked(db) && UniqueEchoes(db.echoes) && EchoExact(db)
    requires id < |db.outbox| && db.outbox[id].platform == WhatsApp && Started(db.outbox, id)
    ensures db.outbox[id].chat < |db.chats|
    ensures ReserveEchoes(db, id, [db.outbox[id].payload.sendId]) == Ok(db.echoes)
  {
    assert RowLinked(db, id) && Reserved(db, id);
    var d := db.outbox[id].payload;
    var e :| 0 <= e < |db.echoes| && db.echoes[e] == ReservedEcho(db, id);
    var ids := [d.sendId];
    assert ids[..0] == [] && ids[0] == d.sendId;
    assert ReserveEchoes(db, id, ids[..0]) == Ok(db.echoes);
    var known := FindEcho(db.echoes, OwnEcho(db, db.outbox[id], d.sendId)).value;
    assert db.echoes[known].key == db.echoes[e].key;
    assert known == e;
    if |d.sendId| > 256 || d.sendId == "" || d.echoActor == "" || |d.echoActor| > 256 {
      assert false;
    }
  }
}
