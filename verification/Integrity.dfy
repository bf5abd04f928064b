/** References between rows: every one points at an existing row, of the same chat and message where it must. */
module Integrity {
  import opened Prelude
  import opened Domain
  import opened Database
  import opened Planning
  import opened Deliveries
  import opened Timers
  import opened Queues
  import opened QuietTransactions
  import opened Evolution
  import opened Steps

  /** The stored intent is well formed and agrees with the columns beside it. */
  predicate IntentStored(r: OutboxRow) {
    var d := r.payload;
    && IntentFields(d, r.message) && MatchesColumns(r, d) && d.operationKey == r.operationKey && d.sendId == r.sendId
    && d.dependsOn == r.dependsOn
  }

  /** An outbox row's chat is its message's chat, and its dependency is an older row of the same message and topic. */
  predicate RowLinked(db: Db, i: nat)
    requires i < |db.outbox|
  {
    var r := db.outbox[i];
    && r.inbox < |db.inbox| && r.chat < |db.chats| && r.generation <= db.chats[r.chat].generation && IntentStored(r)
    && (r.message.Some? ==> r.message.value < |db.messages| && db.messages[r.message.value].chat == r.chat)
    && (r.dependsOn.Some? ==>
          && r.dependsOn.value < i && db.outbox[r.dependsOn.value].message == r.message
          && db.outbox[r.dependsOn.value].chat == r.chat && db.outbox[r.dependsOn.value].generation == r.generation)
  }

  /** A part carries the native chat id of the chat its message is bound to. */
  predicate PartLinked(db: Db, p: Part) {
    && p.message < |db.messages| && db.messages[p.message].chat < |db.chats|
    && p.key.chat == NativeChat(db.chats[db.messages[p.message].chat], p.key.platform)
  }

  predicate Linked(db: Db) {
    && (forall i :: 0 <= i < |db.outbox| ==> RowLinked(db, i))
    && (forall p :: 0 <= p < |db.parts| ==> PartLinked(db, db.parts[p]))
    && (forall m :: 0 <= m < |db.messages| ==> db.messages[m].chat < |db.chats|)
    && (forall e :: 0 <= e < |db.echoes| ==> db.echoes[e].outbox < |db.outbox|)
    && (forall t :: 0 <= t < |db.timers| ==> db.timers[t].message < |db.messages|)
  }

  predicate NewRowsLinked(a: Db, b: Db) {
    && (forall i :: |a.outbox| <= i < |b.outbox| ==> RowLinked(b, i))
    && (forall p :: |a.parts| <= p < |b.parts| ==> PartLinked(b, b.parts[p]))
    && (forall m :: |a.messages| <= m < |b.messages| ==> b.messages[m].chat < |b.chats|)
    && (forall e :: |a.echoes| <= e < |b.echoes| ==> b.echoes[e].outbox < |b.outbox|)
    && (forall t :: |a.timers| <= t < |b.timers| ==> b.timers[t].message < |b.messages|)
  }

  lemma OldRowLinked(a: Db, b: Db, i: nat)
    requires Linked(a) && Evolves(a, b) && i < |a.outbox|
    ensures RowLinked(b, i)
  {
    var r := a.outbox[i];
    assert RowLinked(a, i) && OutboxRowGrows(r, b.outbox[i]) && ChatGrows(a.chats[r.chat], b.chats[r.chat]);
    if r.message.Some? {
      assert MessageGrows(a.messages[r.message.value], b.messages[r.message.value]);
    }
    if r.dependsOn.Some? {
      assert OutboxRowGrows(a.outbox[r.dependsOn.value], b.outbox[r.dependsOn.value]);
    }
  }

  lemma EvolutionKeepsLinks(a: Db, b: Db)
    requires Linked(a) && Evolves(a, b) && NewRowsLinked(a, b)
    ensures Linked(b)
  {
    forall i | 0 <= i < |b.outbox| ensures RowLinked(b, i) {
      if i < |a.outbox| {
        OldRowLinked(a, b, i);
      }
    }
    forall p | 0 <= p < |b.parts| ensures PartLinked(b, b.parts[p]) {
      if p < |a.parts| {
        var m := a.parts[p].message;
        assert PartLinked(a, a.parts[p]) && PartGrows(a.parts[p], b.parts[p]) && MessageGrows(a.messages[m], b.messages[m]);
        assert ChatGrows(a.chats[a.messages[m].chat], b.chats[a.messages[m].chat]);
      }
    }
    forall m | 0 <= m < |b.messages| ensures b.messages[m].chat < |b.chats| {
      assert m < |a.messages| ==> MessageGrows(a.messages[m], b.messages[m]);
    }
    forall t | 0 <= t < |b.timers| ensures b.timers[t].message < |b.messages| {
      assert t < |a.timers| ==> TimerGrows(a.timers[t], b.timers[t]);
    }
  }

  // ----- insertions

  lemma InsertDeliveryLinked(o: Options, db: Db, inbox: nat, d: Delivery, message: Option<nat>, now: int)
    requires Linked(db) && InsertDelivery(o, db, inbox, d, message, now).Ok? && inbox < |db.inbox|
    requires message.Some? ==> message.value < |db.messages| && db.messages[message.value].chat == d.chat
    ensures Linked(InsertDelivery(o, db, inbox, d, message, now).value)
  {
    var b := InsertDelivery(o, db, inbox, d, message, now).value;
    if b != db {
      var n := |db.outbox|;
      assert b.outbox[n] == NewRow(inbox, d, message, now) && b.outbox[..n] == db.outbox;
      assert RowLinked(b, n);
      forall i | 0 <= i < n ensures RowLinked(b, i) {
        assert RowLinked(db, i);
      }
    }
  }

  predicate MessageOfChat(db: Db, message: Option<nat>, chat: int) {
    message.Some? ==> message.value < |db.messages| && db.messages[message.value].chat == chat
  }

  lemma {:induction false} InsertAllLinked(o: Options, db: Db, inbox: nat, ds: seq<Delivery>, message: Option<nat>,
                                           chat: nat, now: int)
    requires Linked(db) && InsertAll(o, db, inbox, ds, message, chat, now).Ok? && inbox < |db.inbox|
    requires MessageOfChat(db, message, chat)
    ensures Linked(InsertAll(o, db, inbox, ds, message, chat, now).value)
  {
    if ds != [] {
      var n := |ds| - 1;
      InsertAllLinked(o, db, inbox, ds[..n], message, chat, now);
      InsertAllAppends(o, db, inbox, ds[..n], message, chat, now);
      InsertDeliveryLinked(o, InsertAll(o, db, inbox, ds[..n], message, chat, now).value, inbox, ds[n], message, now);
    }
  }

  lemma ScheduleTimerLinked(db: Db, spec: TimerSpec)
    requires Linked(db) && ScheduleTimer(db, spec).Ok?
    ensures Linked(ScheduleTimer(db, spec).value.db)
  {
    var b := ScheduleTimer(db, spec).value.db;
    forall i | 0 <= i < |b.outbox| ensures RowLinked(b, i) {
      assert RowLinked(db, i);
    }
  }

  lemma {:induction false} ScheduleAllLinked(db: Db, specs: seq<TimerSpec>, message: Option<nat>)
    requires Linked(db) && ScheduleAll(db, specs, message).Ok?
    ensures Linked(ScheduleAll(db, specs, message).value)
  {
    if specs != [] {
      ScheduleAllLinked(db, specs[..|specs| - 1], message);
      ScheduleTimerLinked(ScheduleAll(db, specs[..|specs| - 1], message).value, specs[|specs| - 1].(message := message));
    }
  }

  // ----- planning

  lemma ApplyEventEvolves(db: Db, e: Event, ds: seq<Delivery>, now: int)
    requires LeaseShape(db) && ApplyEvent(db, e, ds, now).Ok?
    ensures var b := ApplyEvent(db, e, ds, now).value.db;
      Evolves(db, b) && LeaseShape(b) && |b.outbox| == |db.outbox| && b.inbox == db.inbox && b.timers == db.timers
  {
    ApplyEventGrows(db, e, ds, now);
    ApplyEventQuiet(db, e, ds, now);
    QuietKeepsShape(db, ApplyEvent(db, e, ds, now).value.db);
    QuietQueuesGrow(db, ApplyEvent(db, e, ds, now).value.db);
  }

  lemma NewSourceLinked(db: Db, e: Event, ds: seq<Delivery>, now: int)
    requires Linked(db) && e.Valid() && e.target.Some? && ApplySource(db, e, ds, now).Ok?
    ensures var a := ApplySource(db, e, ds, now).value;
      && MessageOfChat(a.db, a.message, a.chat) && a.chat < |a.db.chats| && a.db.chats == db.chats
      && (forall p :: |db.parts| <= p < |a.db.parts| ==> PartLinked(a.db, a.db.parts[p]))
      && (forall m :: |db.messages| <= m < |a.db.messages| ==> a.db.messages[m].chat < |a.db.chats|)
      && a.db.echoes == db.echoes
  {
    var known := FindPart(db.parts, RefKey(e.target.value));
    if known.Some? {
      assert PartLinked(db, db.parts[known.value]);
    }
  }

  lemma ApplyEventLinked(db: Db, e: Event, ds: seq<Delivery>, now: int)
    requires LeaseShape(db) && Linked(db) && e.Valid() && ApplyEvent(db, e, ds, now).Ok?
    ensures var a := ApplyEvent(db, e, ds, now).value;
      Linked(a.db) && MessageOfChat(a.db, a.message, a.chat) && a.chat < |a.db.chats|
  {
    var a := ApplyEvent(db, e, ds, now).value;
    ApplyEventEvolves(db, e, ds, now);
    if e.target.Some? {
      NewSourceLinked(db, e, ds, now);
    }
    EvolutionKeepsLinks(db, a.db);
  }

  lemma PlanWorkLinked(o: Options, a: Applied, inbox: nat, ds: seq<Delivery>, timers: seq<TimerSpec>, now: int)
    requires Linked(a.db) && MessageOfChat(a.db, a.message, a.chat) && inbox < |a.db.inbox|
    requires PlanWork(o, a, inbox, ds, timers, now).Ok?
    ensures Linked(PlanWork(o, a, inbox, ds, timers, now).value)
  {
    if !a.suppress {
      InsertAllLinked(o, a.db, inbox, ds, a.message, a.chat, now);
      ScheduleAllLinked(InsertAll(o, a.db, inbox, ds, a.message, a.chat, now).value, timers, a.message);
    }
  }

  lemma InboxFrameLinked(a: Db, b: Db)
    requires Linked(a) && b == a.(inbox := b.inbox, timers := b.timers) && |a.inbox| <= |b.inbox|
    requires forall t :: 0 <= t < |b.timers| ==> b.timers[t].message < |b.messages|
    ensures Linked(b)
  {
    forall i | 0 <= i < |b.outbox| ensures RowLinked(b, i) {
      assert RowLinked(a, i);
    }
    forall p | 0 <= p < |b.parts| ensures PartLinked(b, b.parts[p]) {
      assert PartLinked(a, a.parts[p]);
    }
  }

  lemma PlanEventLinked(o: Options, db: Db, e: Event, inbox: int, token: nat, ds: seq<Delivery>, timers: seq<TimerSpec>,
                        now: int, clocks: Clocks)
    requires LeaseShape(db) && Linked(db) && PlanEvent(o, db, e, inbox, token, ds, timers, now, clocks).Ok?
    ensures Linked(PlanEvent(o, db, e, inbox, token, ds, timers, now, clocks).value)
  {
    var fenced := Fence(now, clocks.first);
    var a := ApplyEvent(db, e, ds, fenced).value;
    ApplyEventEvolves(db, e, ds, fenced);
    ApplyEventLinked(db, e, ds, fenced);
    PlanWorkLinked(o, a, inbox, ds, timers, fenced);
    InboxFrameLinked(PlanWork(o, a, inbox, ds, timers, fenced).value,
                     PlanEvent(o, db, e, inbox, token, ds, timers, now, clocks).value);
  }

  // ----- completion

  lemma LinkPartLinked(db: Db, parts: seq<Part>, m: nat, d: Delivery, chat: Chat, p: DeliveredPart, c: Completion,
                       tombstone: bool)
    requires LinkPart(parts, m, d, p, c.version, tombstone).Ok? && AcceptablePart(p, d, chat)
    requires m < |db.messages| && db.messages[m].chat < |db.chats| && db.chats[db.messages[m].chat] == chat
    requires forall q :: 0 <= q < |parts| ==> PartLinked(db, parts[q])
    ensures var b := LinkPart(parts, m, d, p, c.version, tombstone).value;
      forall q :: 0 <= q < |b| ==> PartLinked(db, b[q])
  {
    LinkPartGrows(parts, m, d, p, c.version, tombstone);
    var b := LinkPart(parts, m, d, p, c.version, tombstone).value;
    forall q | 0 <= q < |b| ensures PartLinked(db, b[q]) {
      assert q < |parts| ==> PartGrows(parts[q], b[q]) && PartLinked(db, parts[q]);
    }
  }

  lemma {:induction false} LinkPartsLinked(db: Db, parts: seq<Part>, m: nat, d: Delivery, chat: Chat,
                                           results: seq<DeliveredPart>, c: Completion, tombstone: bool)
    requires LinkParts(parts, m, d, chat, results, c.version, tombstone).Ok?
    requires m < |db.messages| && db.messages[m].chat < |db.chats| && db.chats[db.messages[m].chat] == chat
    requires forall q :: 0 <= q < |parts| ==> PartLinked(db, parts[q])
    ensures var b := LinkParts(parts, m, d, chat, results, c.version, tombstone).value;
      forall q :: 0 <= q < |b| ==> PartLinked(db, b[q])
  {
    if results != [] {
      var n := |results| - 1;
      LinkPartsLinked(db, parts, m, d, chat, results[..n], c, tombstone);
      LinkPartLinked(db, LinkParts(parts, m, d, chat, results[..n], c.version, tombstone).value, m, d, chat, results[n], c,
                     tombstone);
    }
  }

  lemma CompletedPartsLinked(db: Db, m: nat, d: Delivery, chat: Chat, c: Completion, tombstone: bool)
    requires Linked(db) && CompletedParts(db.parts, m, d, chat, c, tombstone).Ok?
    requires m < |db.messages| && db.messages[m].chat < |db.chats| && db.chats[db.messages[m].chat] == chat
    ensures var b := CompletedParts(db.parts, m, d, chat, c, tombstone).value;
      forall q :: 0 <= q < |b| ==> PartLinked(db, b[q])
  {
    LinkPartsLinked(db, db.parts, m, d, chat, c.parts, c, tombstone);
    var linked := LinkParts(db.parts, m, d, chat, c.parts, c.version, tombstone).value;
    var acked := AcknowledgeTarget(linked, m, d, c.version, tombstone).value;
    if (d.kind.MessageEdit? || d.kind.MessageRevoke?) && d.target.Some? {
      AcknowledgeGrows(linked, m, RefKey(d.target.value), c.version, d.kind.MessageRevoke? || tombstone);
      forall q | 0 <= q < |acked| ensures PartLinked(db, acked[q]) {
        assert PartGrows(linked[q], acked[q]) && PartLinked(db, linked[q]);
      }
    }
  }

  lemma {:induction false} ReserveEchoesOwned(db: Db, id: nat, eventIds: seq<string>)
    requires id < |db.outbox| && db.outbox[id].chat < |db.chats| && ReserveEchoes(db, id, eventIds).Ok?
    ensures var b := ReserveEchoes(db, id, eventIds).value;
      db.echoes <= b && forall e :: |db.echoes| <= e < |b| ==> b[e].outbox == id
  {
    if eventIds != [] {
      ReserveEchoesOwned(db, id, eventIds[..|eventIds| - 1]);
    }
  }

  lemma CompleteDeliveryLinked(o: Options, db: Db, id: int, token: nat, c: Completion, now: int, clocks: Clocks)
    requires LeaseShape(db) && Linked(db) && CompleteDelivery(o, db, id, token, c, now, clocks).Ok?
    ensures Linked(CompleteDelivery(o, db, id, token, c, now, clocks).value)
  {
    var b := CompleteDelivery(o, db, id, token, c, now, clocks).value;
    assert RowLinked(db, id);
    var m := CompletionShape(db, id, c).value;
    CompleteDeliveryGrows(o, db, id, token, c, now, clocks);
    CompleteDeliveryQuiet(o, db, id, token, c, now, clocks);
    QuietQueuesGrow(db, b);
    CompletedPartsLinked(db, m, db.outbox[id].payload, db.chats[db.outbox[id].chat], c, db.messages[m].tombstone);
    ReserveEchoesOwned(db, id, c.echoKeys);
    forall p | 0 <= p < |b.parts| ensures PartLinked(b, b.parts[p]) {
      assert PartLinked(db, b.parts[p]);
    }
    EvolutionKeepsLinks(db, b);
  }

  // ----- timers

  lemma {:induction false} InsertRevokesLinked(o: Options, db: Db, t: Timer, chat: nat, inbox: nat, ds: seq<Delivery>,
                                               now: int)
    requires Linked(db) && InsertRevokes(o, db, t, chat, inbox, ds, now).Ok? && (ds != [] ==> inbox < |db.inbox|)
    requires MessageOfChat(db, Some(t.message), chat)
    ensures Linked(InsertRevokes(o, db, t, chat, inbox, ds, now).value)
  {
    if ds != [] {
      var n := |ds| - 1;
      InsertRevokesLinked(o, db, t, chat, inbox, ds[..n], now);
      InsertRevokesAppends(o, db, t, chat, inbox, ds[..n], now);
      InsertDeliveryLinked(o, InsertRevokes(o, db, t, chat, inbox, ds[..n], now).value, inbox, ds[n], Some(t.message), now);
    }
  }

  lemma EntombEvolves(db: Db, m: nat)
    requires LeaseShape(db) && m < |db.messages|
    ensures Evolves(db, Entomb(db, m)) && LeaseShape(Entomb(db, m))
  {
    EntombGrows(db, m);
    SupersedeQuiet(db.outbox, m, false);
    QuietReflexive(db);
    QuietKeepsShape(db, Entomb(db, m));
    QuietQueuesGrow(db, Entomb(db, m));
  }

  lemma EmptyTextLinked(db: Db, m: nat)
    requires LeaseShape(db) && Linked(db) && m < |db.messages|
    ensures Linked(EmptyText(db, m)) && LeaseShape(EmptyText(db, m))
  {
    QuietReflexive(db);
    QuietQueuesGrow(db, db);
    assert Grows(db, EmptyText(db, m));
    EvolutionKeepsLinks(db, EmptyText(db, m));
  }

  lemma EntombLinked(db: Db, m: nat)
    requires LeaseShape(db) && Linked(db) && m < |db.messages|
    ensures Linked(Entomb(db, m))
  {
    EntombEvolves(db, m);
    EvolutionKeepsLinks(db, Entomb(db, m));
  }

  lemma AppendsKeepShape(a: Db, b: Db)
    requires LeaseShape(a) && OnlyAppends(a, b)
    ensures LeaseShape(b)
  {
    forall i | 0 <= i < |b.outbox| ensures OutboxShape(b.outbox[i]) {
      assert i < |a.outbox| ==> b.outbox[i] == a.outbox[i];
    }
  }

  lemma ApplyTimerLinked(o: Options, db: Db, t: Timer, ds: seq<Delivery>, now: int)
    requires LeaseShape(db) && Linked(db) && HasRow(db.messages, t.message) && ApplyTimer(o, db, t, ds, now).Ok?
    ensures Linked(ApplyTimer(o, db, t, ds, now).value)
  {
    var m := t.message;
    var inbox := if ds == [] then 0 else OriginInbox(db.outbox, m).value;
    if ds != [] {
      assert RowLinked(db, FirstIndex(db.outbox, (r: OutboxRow) => r.message == Some(m)).value);
    }
    InsertRevokesLinked(o, db, t, db.messages[m].chat, inbox, ds, now);
    InsertRevokesAppends(o, db, t, db.messages[m].chat, inbox, ds, now);
    var planned := InsertRevokes(o, db, t, db.messages[m].chat, inbox, ds, now).value;
    if t.kind.Expire? {
      AppendsKeepShape(db, planned);
      EmptyTextLinked(planned, m);
      EntombLinked(EmptyText(planned, m), m);
    }
  }

  lemma CompleteTimerLinked(o: Options, db: Db, id: int, token: nat, ds: seq<Delivery>, now: int, clocks: Clocks)
    requires LeaseShape(db) && Linked(db) && CompleteTimer(o, db, id, token, ds, now, clocks).Ok?
    ensures Linked(CompleteTimer(o, db, id, token, ds, now, clocks).value)
  {
    var fenced := Fence(now, clocks.first);
    ApplyTimerLinked(o, db, db.timers[id], ds, fenced);
    InboxFrameLinked(ApplyTimer(o, db, db.timers[id], ds, fenced).value,
                     CompleteTimer(o, db, id, token, ds, now, clocks).value);
  }

  // ----- any step

  predicate AddsNoLinks(a: Db, b: Db) {
    |b.outbox| == |a.outbox| && |b.parts| == |a.parts| && |b.messages| == |a.messages| && |b.timers| == |a.timers|
    && forall e :: |a.echoes| <= e < |b.echoes| ==> b.echoes[e].outbox < |b.outbox|
  }

  lemma OtherStepAddsNoLinks(o: Options, db: Db, token: nat, s: Step)
    requires Outcome(o, db, token, s).Ok?
    requires !s.PlanStep? && !s.CompleteStep? && !s.CompleteTimerStep? && !s.ScheduleStep?
    ensures AddsNoLinks(db, After(o, db, token, s))
  {
  }

  lemma OtherStepLinked(o: Options, db: Db, token: nat, s: Step)
    requires Linked(db) && Evolves(db, After(o, db, token, s)) && Outcome(o, db, token, s).Ok?
    requires !s.PlanStep? && !s.CompleteStep? && !s.CompleteTimerStep? && !s.ScheduleStep?
    ensures Linked(After(o, db, token, s))
  {
    OtherStepAddsNoLinks(o, db, token, s);
    EvolutionKeepsLinks(db, After(o, db, token, s));
  }

  /** In every state a run can reach, every reference is to an existing row of the right chat and message. */
  lemma StepKeepsLinks(o: Options, db: Db, token: nat, s: Step)
    requires LeaseShape(db) && Linked(db)
    ensures Linked(After(o, db, token, s))
  {
    StepKeepsShape(o, db, token, s);
    if Outcome(o, db, token, s).Ok? {
      match s
      case PlanStep(e, id, t, ds, timers, now, clocks) => PlanEventLinked(o, db, e, id, t, ds, timers, now, clocks);
      case CompleteStep(id, t, c, now, clocks) => CompleteDeliveryLinked(o, db, id, t, c, now, clocks);
      case CompleteTimerStep(id, t, ds, now, clocks) => CompleteTimerLinked(o, db, id, t, ds, now, clocks);
      case ScheduleStep(spec) => ScheduleTimerLinked(db, spec);
      case _ => OtherStepLinked(o, db, token, s);
    }
  }
}
