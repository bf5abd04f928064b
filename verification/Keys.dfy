/** The uniqueness constraints of the schema hold in every reachable state. */
module Keys {
  import opened Prelude
  import opened Domain
  import opened Database
  import opened Admission
  import opened Planning
  import opened Deliveries
  import opened Timers
  import opened Chats
  import opened Queues
  import opened QuietTransactions
  import opened Evolution
  import opened Steps
  import opened Integrity

  predicate SameSlot(a: Part, b: Part) {
    a.message == b.message && a.key.platform == b.key.platform
    && (a.index == b.index || (a.role.Primary? && b.role.Primary? && !a.retired && !b.retired))
  }

  /** No two parts share a native identity or an index, and a message has one active primary part per platform. */
  predicate UniqueParts(parts: seq<Part>) {
    forall p, q :: 0 <= p < q < |parts| ==> parts[p].key != parts[q].key && !SameSlot(parts[p], parts[q])
  }

  /** No two inbox rows answer to the same event. */
  predicate UniqueInbox(inbox: seq<InboxRow>) {
    && (forall i :: 0 <= i < |inbox| ==> inbox[i].dedupe == AdmissionKey(inbox[i].payload))
    && (forall i, j :: 0 <= i < j < |inbox| ==> inbox[i].dedupe != inbox[j].dedupe)
  }

  predicate UniqueOperations(outbox: seq<OutboxRow>) {
    forall i, j :: 0 <= i < j < |outbox| ==>
      outbox[i].operationKey != outbox[j].operationKey
      && !(outbox[i].sendId != "" && outbox[i].sendId == outbox[j].sendId && outbox[i].platform == outbox[j].platform
           && outbox[i].chat == outbox[j].chat)
  }

  predicate UniqueEchoes(echoes: seq<Echo>) {
    forall i, j :: 0 <= i < j < |echoes| ==> echoes[i].key != echoes[j].key
  }

  predicate UniqueTimers(timers: seq<Timer>) {
    forall i, j :: 0 <= i < j < |timers| ==> TimerKey(timers[i]) != TimerKey(timers[j])
  }

  predicate UniqueChats(chats: seq<Chat>) {
    forall i, j :: 0 <= i < j < |chats| ==>
      chats[i].jid != chats[j].jid
      && !(chats[i].topic.Some? && chats[i].topic == chats[j].topic && chats[i].tgChat == chats[j].tgChat)
  }

  predicate Keyed(db: Db) {
    && UniqueParts(db.parts) && UniqueInbox(db.inbox) && UniqueOperations(db.outbox) && UniqueEchoes(db.echoes)
    && UniqueTimers(db.timers) && UniqueChats(db.chats)
  }

  // ----- frames

  lemma PlanWorkFrame(o: Options, a: Applied, inbox: nat, ds: seq<Delivery>, timers: seq<TimerSpec>, now: int)
    requires PlanWork(o, a, inbox, ds, timers, now).Ok?
    ensures var b := PlanWork(o, a, inbox, ds, timers, now).value; b == a.db.(outbox := b.outbox, timers := b.timers)
  {
    if !a.suppress {
      InsertAllAppends(o, a.db, inbox, ds, a.message, a.chat, now);
      ScheduleAllAppends(InsertAll(o, a.db, inbox, ds, a.message, a.chat, now).value, timers, a.message);
    }
  }

  lemma ApplyTimerParts(o: Options, db: Db, t: Timer, ds: seq<Delivery>, now: int)
    requires HasRow(db.messages, t.message) && ApplyTimer(o, db, t, ds, now).Ok?
    ensures var b := ApplyTimer(o, db, t, ds, now).value;
      && b == db.(messages := b.messages, parts := b.parts, outbox := b.outbox)
      && b.parts == (if t.kind.Expire? then MarkDeleted(db.parts, t.message) else db.parts)
  {
    var m := t.message;
    var inbox := if ds == [] then 0 else OriginInbox(db.outbox, m).value;
    InsertRevokesAppends(o, db, t, db.messages[m].chat, inbox, ds, now);
  }

  // ----- parts

  lemma GrowthKeepsParts(a: seq<Part>, b: seq<Part>)
    requires UniqueParts(a) && PartsGrow(a, b) && |a| == |b|
    ensures UniqueParts(b)
  {
    forall p, q | 0 <= p < q < |b| ensures b[p].key != b[q].key && !SameSlot(b[p], b[q]) {
      assert PartGrows(a[p], b[p]) && PartGrows(a[q], b[q]) && !SameSlot(a[p], a[q]);
    }
  }

  lemma LinkPartKeepsParts(parts: seq<Part>, m: nat, d: Delivery, p: DeliveredPart, version: SourceVersion, tombstone: bool)
    requires UniqueParts(parts) && LinkPart(parts, m, d, p, version, tombstone).Ok?
    ensures UniqueParts(LinkPart(parts, m, d, p, version, tombstone).value)
  {
    LinkPartGrows(parts, m, d, p, version, tombstone);
    var b := LinkPart(parts, m, d, p, version, tombstone).value;
    if |b| == |parts| {
      GrowthKeepsParts(parts, b);
    }
  }

  lemma {:induction false} LinkPartsKeepParts(parts: seq<Part>, m: nat, d: Delivery, chat: Chat,
                                              results: seq<DeliveredPart>, version: SourceVersion, tombstone: bool)
    requires UniqueParts(parts) && LinkParts(parts, m, d, chat, results, version, tombstone).Ok?
    ensures UniqueParts(LinkParts(parts, m, d, chat, results, version, tombstone).value)
  {
    if results != [] {
      var n := |results| - 1;
      LinkPartsKeepParts(parts, m, d, chat, results[..n], version, tombstone);
      LinkPartKeepsParts(LinkParts(parts, m, d, chat, results[..n], version, tombstone).value, m, d, results[n], version,
                         tombstone);
    }
  }

  lemma CompletedPartsKeepParts(parts: seq<Part>, m: nat, d: Delivery, chat: Chat, c: Completion, tombstone: bool)
    requires UniqueParts(parts) && CompletedParts(parts, m, d, chat, c, tombstone).Ok?
    ensures UniqueParts(CompletedParts(parts, m, d, chat, c, tombstone).value)
  {
    LinkPartsKeepParts(parts, m, d, chat, c.parts, c.version, tombstone);
    var linked := LinkParts(parts, m, d, chat, c.parts, c.version, tombstone).value;
    var acked := AcknowledgeTarget(linked, m, d, c.version, tombstone).value;
    if (d.kind.MessageEdit? || d.kind.MessageRevoke?) && d.target.Some? {
      AcknowledgeGrows(linked, m, RefKey(d.target.value), c.version, d.kind.MessageRevoke? || tombstone);
    }
    GrowthKeepsParts(linked, acked);
    GrowthKeepsParts(acked, CompletedParts(parts, m, d, chat, c, tombstone).value);
  }

  lemma CreateKeepsParts(db: Db, e: Event, chat: nat, now: int)
    requires Linked(db) && UniqueParts(db.parts) && e.target.Some? && chat < |db.chats|
    requires CreateSource(db, e, chat, now).Ok? && FindPart(db.parts, RefKey(e.target.value)).None?
    ensures UniqueParts(CreateSource(db, e, chat, now).value.db.parts)
  {
    var b := CreateSource(db, e, chat, now).value.db;
    forall p | 0 <= p < |db.parts| ensures !SameSlot(b.parts[p], b.parts[|db.parts|]) {
      assert PartLinked(db, db.parts[p]);
    }
  }

  lemma OnlyCreatesAddParts(db: Db, e: Event, ds: seq<Delivery>, now: int)
    requires ApplyEvent(db, e, ds, now).Ok?
    ensures |ApplyEvent(db, e, ds, now).value.db.parts| != |db.parts| ==>
              e.target.Some? && FindPart(db.parts, RefKey(e.target.value)).None?
    ensures e.target.Some? && FindPart(db.parts, RefKey(e.target.value)).None? ==>
              && SourceChat(db, e, ds).Ok? && SourceChat(db, e, ds).value < |db.chats|
              && ApplyEvent(db, e, ds, now) == CreateSource(db, e, SourceChat(db, e, ds).value, now)
  {
  }

  lemma ApplyEventKeepsParts(db: Db, e: Event, ds: seq<Delivery>, now: int)
    requires Linked(db) && UniqueParts(db.parts) && ApplyEvent(db, e, ds, now).Ok?
    ensures UniqueParts(ApplyEvent(db, e, ds, now).value.db.parts)
  {
    OnlyCreatesAddParts(db, e, ds, now);
    if e.target.Some? && FindPart(db.parts, RefKey(e.target.value)).None? {
      CreateKeepsParts(db, e, SourceChat(db, e, ds).value, now);
    } else {
      ApplyEventGrows(db, e, ds, now);
      GrowthKeepsParts(db.parts, ApplyEvent(db, e, ds, now).value.db.parts);
    }
  }

  lemma PlanKeepsParts(o: Options, db: Db, s: Step)
    requires Linked(db) && UniqueParts(db.parts)
    requires s.PlanStep? && PlanEvent(o, db, s.e, s.id, s.token, s.ds, s.timers, s.now, s.clocks).Ok?
    ensures UniqueParts(PlanEvent(o, db, s.e, s.id, s.token, s.ds, s.timers, s.now, s.clocks).value.parts)
  {
    var fenced := Fence(s.now, s.clocks.first);
    ApplyEventKeepsParts(db, s.e, s.ds, fenced);
    PlanWorkFrame(o, ApplyEvent(db, s.e, s.ds, fenced).value, s.id, s.ds, s.timers, fenced);
  }

  lemma CompleteKeepsParts(o: Options, db: Db, id: int, token: nat, c: Completion, now: int, clocks: Clocks)
    requires UniqueParts(db.parts) && CompleteDelivery(o, db, id, token, c, now, clocks).Ok?
    ensures UniqueParts(CompleteDelivery(o, db, id, token, c, now, clocks).value.parts)
  {
    var m := CompletionShape(db, id, c).value;
    CompletedPartsKeepParts(db.parts, m, db.outbox[id].payload, db.chats[db.outbox[id].chat], c, db.messages[m].tombstone);
  }

  lemma PartsLength(o: Options, db: Db, token: nat, s: Step)
    requires Outcome(o, db, token, s).Ok? && !s.PlanStep? && !s.CompleteStep?
    ensures |After(o, db, token, s).parts| == |db.parts|
  {
    if s.CompleteTimerStep? {
      ApplyTimerParts(o, db, db.timers[s.id], s.ds, Fence(s.now, s.clocks.first));
    }
  }

  lemma StepKeepsParts(o: Options, db: Db, token: nat, s: Step)
    requires Linked(db) && UniqueParts(db.parts)
    ensures UniqueParts(After(o, db, token, s).parts)
  {
    if Outcome(o, db, token, s).Ok? {
      match s
      case PlanStep(e, id, t, ds, timers, now, clocks) => PlanKeepsParts(o, db, s);
      case CompleteStep(id, t, c, now, clocks) => CompleteKeepsParts(o, db, id, t, c, now, clocks);
      case _ =>
        StepGrows(o, db, token, s);
        PartsLength(o, db, token, s);
        GrowthKeepsParts(db.parts, After(o, db, token, s).parts);
    }
  }

  // ----- inbox

  lemma AcceptKeepsInbox(o: Options, inbox: seq<InboxRow>, e: Event, clock: int)
    requires UniqueInbox(inbox) && Accept(o, inbox, e, clock).Ok?
    ensures UniqueInbox(Accept(o, inbox, e, clock).value.inbox)
  {
  }

  lemma {:induction false} AcceptAllKeepsInbox(o: Options, inbox: seq<InboxRow>, events: seq<Event>, epoch: string, clock: int)
    requires UniqueInbox(inbox) && AcceptAll(o, inbox, events, epoch, clock).Ok?
    ensures UniqueInbox(AcceptAll(o, inbox, events, epoch, clock).value)
  {
    if events != [] {
      var n := |events| - 1;
      AcceptAllKeepsInbox(o, inbox, events[..n], epoch, clock);
      AcceptKeepsInbox(o, AcceptAll(o, inbox, events[..n], epoch, clock).value, events[n], clock);
    }
  }

  lemma GrowthKeepsInbox(a: Db, b: Db)
    requires UniqueInbox(a.inbox) && QueuesGrow(a, b) && |a.inbox| == |b.inbox|
    ensures UniqueInbox(b.inbox)
  {
    forall i | 0 <= i < |b.inbox| ensures b.inbox[i].dedupe == a.inbox[i].dedupe && b.inbox[i].payload == a.inbox[i].payload {
      assert InboxRowGrows(a.inbox[i], b.inbox[i]);
    }
  }

  lemma InboxLength(o: Options, db: Db, token: nat, s: Step)
    requires LeaseShape(db) && Outcome(o, db, token, s).Ok? && !s.AcceptEvent? && !s.AcceptBatch?
    ensures |After(o, db, token, s).inbox| == |db.inbox|
  {
    if s.PlanStep? {
      var fenced := Fence(s.now, s.clocks.first);
      ApplyEventEvolves(db, s.e, s.ds, fenced);
      PlanWorkFrame(o, ApplyEvent(db, s.e, s.ds, fenced).value, s.id, s.ds, s.timers, fenced);
    } else if s.CompleteTimerStep? {
      ApplyTimerParts(o, db, db.timers[s.id], s.ds, Fence(s.now, s.clocks.first));
    }
  }

  lemma StepKeepsInbox(o: Options, db: Db, token: nat, s: Step)
    requires LeaseShape(db) && UniqueInbox(db.inbox)
    ensures UniqueInbox(After(o, db, token, s).inbox)
  {
    var b := After(o, db, token, s);
    if Outcome(o, db, token, s).Ok? {
      if s.AcceptEvent? {
        AcceptKeepsInbox(o, db.inbox, s.e, s.clock);
      } else if s.AcceptBatch? {
        AcceptAllKeepsInbox(o, db.inbox, s.events, s.epoch, s.clock);
      } else {
        StepKeepsShape(o, db, token, s);
        InboxLength(o, db, token, s);
        GrowthKeepsInbox(db, b);
      }
    }
  }

  // ----- outbox

  lemma InsertKeepsOperations(o: Options, db: Db, inbox: nat, d: Delivery, message: Option<nat>, now: int)
    requires UniqueOperations(db.outbox) && InsertDelivery(o, db, inbox, d, message, now).Ok?
    ensures UniqueOperations(InsertDelivery(o, db, inbox, d, message, now).value.outbox)
  {
  }

  lemma {:induction false} InsertAllKeepsOperations(o: Options, db: Db, inbox: nat, ds: seq<Delivery>, message: Option<nat>,
                                                    chat: nat, now: int)
    requires UniqueOperations(db.outbox) && InsertAll(o, db, inbox, ds, message, chat, now).Ok?
    ensures UniqueOperations(InsertAll(o, db, inbox, ds, message, chat, now).value.outbox)
  {
    if ds != [] {
      var n := |ds| - 1;
      InsertAllKeepsOperations(o, db, inbox, ds[..n], message, chat, now);
      InsertKeepsOperations(o, InsertAll(o, db, inbox, ds[..n], message, chat, now).value, inbox, ds[n], message, now);
    }
  }

  lemma {:induction false} InsertRevokesKeepOperations(o: Options, db: Db, t: Timer, chat: nat, inbox: nat,
                                                       ds: seq<Delivery>, now: int)
    requires UniqueOperations(db.outbox) && InsertRevokes(o, db, t, chat, inbox, ds, now).Ok?
    ensures UniqueOperations(InsertRevokes(o, db, t, chat, inbox, ds, now).value.outbox)
  {
    if ds != [] {
      var n := |ds| - 1;
      InsertRevokesKeepOperations(o, db, t, chat, inbox, ds[..n], now);
      InsertKeepsOperations(o, InsertRevokes(o, db, t, chat, inbox, ds[..n], now).value, inbox, ds[n], Some(t.message), now);
    }
  }

  lemma SameRowsKeepOperations(a: seq<OutboxRow>, b: seq<OutboxRow>)
    requires UniqueOperations(a) && |a| == |b| && forall i :: 0 <= i < |a| ==> SameIntentRow(a[i], b[i])
    ensures UniqueOperations(b)
  {
    forall i | 0 <= i < |b|
      ensures b[i].operationKey == a[i].operationKey && b[i].sendId == a[i].sendId && b[i].platform == a[i].platform
              && b[i].chat == a[i].chat
    {
      assert SameIntentRow(a[i], b[i]);
    }
  }

  lemma ApplyEventOutbox(db: Db, e: Event, ds: seq<Delivery>, now: int)
    requires ApplyEvent(db, e, ds, now).Ok?
    ensures var b := ApplyEvent(db, e, ds, now).value.db.outbox;
      |b| == |db.outbox| && forall i :: 0 <= i < |b| ==> SameIntentRow(db.outbox[i], b[i])
  {
    ApplyEventQuiet(db, e, ds, now);
    var b := ApplyEvent(db, e, ds, now).value.db.outbox;
    forall i | 0 <= i < |b| ensures SameIntentRow(db.outbox[i], b[i]) {
      assert QuietRow(db.outbox[i], b[i]);
    }
  }

  lemma PlanKeepsOperations(o: Options, db: Db, s: Step)
    requires UniqueOperations(db.outbox)
    requires s.PlanStep? && PlanEvent(o, db, s.e, s.id, s.token, s.ds, s.timers, s.now, s.clocks).Ok?
    ensures UniqueOperations(PlanEvent(o, db, s.e, s.id, s.token, s.ds, s.timers, s.now, s.clocks).value.outbox)
  {
    var fenced := Fence(s.now, s.clocks.first);
    var a := ApplyEvent(db, s.e, s.ds, fenced).value;
    ApplyEventOutbox(db, s.e, s.ds, fenced);
    SameRowsKeepOperations(db.outbox, a.db.outbox);
    if !a.suppress {
      InsertAllKeepsOperations(o, a.db, s.id, s.ds, a.message, a.chat, fenced);
      ScheduleAllAppends(InsertAll(o, a.db, s.id, s.ds, a.message, a.chat, fenced).value, s.timers, a.message);
    }
  }

  lemma OutboxLength(o: Options, db: Db, token: nat, s: Step)
    requires Outcome(o, db, token, s).Ok? && !s.PlanStep? && !s.CompleteTimerStep?
    ensures |After(o, db, token, s).outbox| == |db.outbox|
  {
  }

  lemma GrowthKeepsOperations(a: Db, b: Db)
    requires UniqueOperations(a.outbox) && QueuesGrow(a, b) && |b.outbox| == |a.outbox|
    ensures UniqueOperations(b.outbox)
  {
    forall i | 0 <= i < |a.outbox| ensures SameIntentRow(a.outbox[i], b.outbox[i]) {
      assert OutboxRowGrows(a.outbox[i], b.outbox[i]);
    }
    SameRowsKeepOperations(a.outbox, b.outbox);
  }

  lemma TimerKeepsOperations(o: Options, db: Db, t: Timer, ds: seq<Delivery>, now: int)
    requires UniqueOperations(db.outbox) && HasRow(db.messages, t.message) && ApplyTimer(o, db, t, ds, now).Ok?
    ensures UniqueOperations(ApplyTimer(o, db, t, ds, now).value.outbox)
  {
    var inbox := if ds == [] then 0 else OriginInbox(db.outbox, t.message).value;
    InsertRevokesKeepOperations(o, db, t, db.messages[t.message].chat, inbox, ds, now);
    var planned := InsertRevokes(o, db, t, db.messages[t.message].chat, inbox, ds, now).value;
    if t.kind.Expire? {
      SameRowsKeepOperations(planned.outbox, Supersede(planned.outbox, t.message, false));
    }
  }

  lemma StepKeepsOperations(o: Options, db: Db, token: nat, s: Step)
    requires LeaseShape(db) && UniqueOperations(db.outbox)
    ensures UniqueOperations(After(o, db, token, s).outbox)
  {
    if Outcome(o, db, token, s).Ok? {
      match s
      case PlanStep(e, id, t, ds, timers, now, clocks) => PlanKeepsOperations(o, db, s);
      case CompleteTimerStep(id, t, ds, now, clocks) =>
        TimerKeepsOperations(o, db, db.timers[id], ds, Fence(now, clocks.first));
      case _ =>
        StepKeepsShape(o, db, token, s);
        OutboxLength(o, db, token, s);
        GrowthKeepsOperations(db, After(o, db, token, s));
    }
  }

  // ----- echoes, timers and chats

  lemma {:induction false} ReserveEchoesUnique(db: Db, id: nat, eventIds: seq<string>)
    requires UniqueEchoes(db.echoes)
    requires id < |db.outbox| && db.outbox[id].chat < |db.chats| && ReserveEchoes(db, id, eventIds).Ok?
    ensures UniqueEchoes(ReserveEchoes(db, id, eventIds).value)
  {
    if eventIds != [] {
      ReserveEchoesUnique(db, id, eventIds[..|eventIds| - 1]);
    }
  }

  lemma ApplyEventFrame(db: Db, e: Event, ds: seq<Delivery>, now: int)
    requires ApplyEvent(db, e, ds, now).Ok?
    ensures var b := ApplyEvent(db, e, ds, now).value.db;
      b == db.(messages := b.messages, parts := b.parts, outbox := b.outbox)
  {
  }

  lemma PlanFrame(o: Options, db: Db, s: Step)
    requires s.PlanStep? && PlanEvent(o, db, s.e, s.id, s.token, s.ds, s.timers, s.now, s.clocks).Ok?
    ensures var b := PlanEvent(o, db, s.e, s.id, s.token, s.ds, s.timers, s.now, s.clocks).value;
      b.chats == db.chats && b.echoes == db.echoes && b.cursor == db.cursor
  {
    var fenced := Fence(s.now, s.clocks.first);
    ApplyEventFrame(db, s.e, s.ds, fenced);
    PlanWorkFrame(o, ApplyEvent(db, s.e, s.ds, fenced).value, s.id, s.ds, s.timers, fenced);
  }

  lemma EchoesFrame(o: Options, db: Db, token: nat, s: Step)
    requires !s.BeginStep? && !s.CompleteStep?
    ensures After(o, db, token, s).echoes == db.echoes
  {
    if Outcome(o, db, token, s).Ok? {
      if s.PlanStep? {
        PlanFrame(o, db, s);
      } else if s.CompleteTimerStep? {
        ApplyTimerParts(o, db, db.timers[s.id], s.ds, Fence(s.now, s.clocks.first));
      }
    }
  }

  lemma BeginKeepsEchoes(db: Db, id: int, token: nat, now: int, clocks: Clocks)
    requires UniqueEchoes(db.echoes) && BeginSend(db, id, token, now, clocks).Ok?
    ensures UniqueEchoes(BeginSend(db, id, token, now, clocks).value.echoes)
  {
  }

  lemma CompleteKeepsEchoes(o: Options, db: Db, id: int, token: nat, c: Completion, now: int, clocks: Clocks)
    requires UniqueEchoes(db.echoes) && CompleteDelivery(o, db, id, token, c, now, clocks).Ok?
    ensures UniqueEchoes(CompleteDelivery(o, db, id, token, c, now, clocks).value.echoes)
  {
    ReserveEchoesUnique(db, id, c.echoKeys);
  }

  lemma StepKeepsEchoes(o: Options, db: Db, token: nat, s: Step)
    requires UniqueEchoes(db.echoes)
    ensures UniqueEchoes(After(o, db, token, s).echoes)
  {
    if Outcome(o, db, token, s).Ok? {
      match s
      case BeginStep(id, t, now, clocks) => BeginKeepsEchoes(db, id, t, now, clocks);
      case CompleteStep(id, t, c, now, clocks) => CompleteKeepsEchoes(o, db, id, t, c, now, clocks);
      case _ => EchoesFrame(o, db, token, s);
    }
  }

  lemma {:induction false} ScheduleAllUnique(db: Db, specs: seq<TimerSpec>, message: Option<nat>)
    requires UniqueTimers(db.timers) && ScheduleAll(db, specs, message).Ok?
    ensures UniqueTimers(ScheduleAll(db, specs, message).value.timers)
  {
    if specs != [] {
      ScheduleAllUnique(db, specs[..|specs| - 1], message);
    }
  }

  lemma SameTimersKeepKeys(a: seq<Timer>, b: seq<Timer>)
    requires UniqueTimers(a) && |a| == |b| && forall i :: 0 <= i < |a| ==> TimerKey(b[i]) == TimerKey(a[i])
    ensures UniqueTimers(b)
  {
  }

  lemma TimersLength(o: Options, db: Db, token: nat, s: Step)
    requires Outcome(o, db, token, s).Ok? && !s.PlanStep? && !s.ScheduleStep?
    ensures |After(o, db, token, s).timers| == |db.timers|
  {
    if s.CompleteTimerStep? {
      ApplyTimerParts(o, db, db.timers[s.id], s.ds, Fence(s.now, s.clocks.first));
    }
  }

  lemma StepKeepsTimers(o: Options, db: Db, token: nat, s: Step)
    requires LeaseShape(db) && UniqueTimers(db.timers)
    ensures UniqueTimers(After(o, db, token, s).timers)
  {
    var b := After(o, db, token, s);
    if Outcome(o, db, token, s).Ok? {
      if s.PlanStep? {
        var fenced := Fence(s.now, s.clocks.first);
        var a := ApplyEvent(db, s.e, s.ds, fenced).value;
        ApplyEventFrame(db, s.e, s.ds, fenced);
        if !a.suppress {
          InsertAllAppends(o, a.db, s.id, s.ds, a.message, a.chat, fenced);
          ScheduleAllUnique(InsertAll(o, a.db, s.id, s.ds, a.message, a.chat, fenced).value, s.timers, a.message);
        }
      } else if !s.ScheduleStep? {
        StepKeepsShape(o, db, token, s);
        TimersLength(o, db, token, s);
        forall i | 0 <= i < |b.timers| ensures TimerKey(b.timers[i]) == TimerKey(db.timers[i]) {
          assert TimerGrows(db.timers[i], b.timers[i]);
        }
        SameTimersKeepKeys(db.timers, b.timers);
      }
    }
  }

  lemma ChatsFrame(o: Options, db: Db, token: nat, s: Step)
    requires !s.CompleteTopicStep? && !s.DiscoverStep? && !s.BindStep? && !s.ChatStateStep?
    ensures After(o, db, token, s).chats == db.chats
  {
    if Outcome(o, db, token, s).Ok? {
      if s.PlanStep? {
        PlanFrame(o, db, s);
      } else if s.CompleteTimerStep? {
        ApplyTimerParts(o, db, db.timers[s.id], s.ds, Fence(s.now, s.clocks.first));
      }
    }
  }

  lemma CompleteTopicKeepsChats(db: Db, id: int, token: nat, topic: TopicRef, now: int, clocks: Clocks)
    requires UniqueChats(db.chats) && CompleteTopicDelivery(db, id, token, topic, now, clocks).Ok?
    ensures UniqueChats(CompleteTopicDelivery(db, id, token, topic, now, clocks).value.chats)
  {
  }

  lemma BindKeepsChats(db: Db, jid: string, topic: TopicRef)
    requires UniqueChats(db.chats) && BindTopic(db, jid, topic).Ok?
    ensures UniqueChats(BindTopic(db, jid, topic).value.chats)
  {
  }

  lemma DiscoverKeepsChats(db: Db, c: Candidate, tgChat: int)
    requires UniqueChats(db.chats) && DiscoverChat(db, c, tgChat).Ok?
    ensures UniqueChats(DiscoverChat(db, c, tgChat).value.chats)
  {
  }

  lemma StepKeepsChats(o: Options, db: Db, token: nat, s: Step)
    requires UniqueChats(db.chats)
    ensures UniqueChats(After(o, db, token, s).chats)
  {
    if Outcome(o, db, token, s).Ok? {
      match s
      case CompleteTopicStep(id, t, topic, now, clocks) => CompleteTopicKeepsChats(db, id, t, topic, now, clocks);
      case BindStep(jid, topic) => BindKeepsChats(db, jid, topic);
      case DiscoverStep(c, tgChat) => DiscoverKeepsChats(db, c, tgChat);
      case ChatStateStep(chat, generation, state) =>
      case _ => ChatsFrame(o, db, token, s);
    }
  }

  /** No run ever breaks a uniqueness constraint of the schema. */
  lemma StepKeepsKeys(o: Options, db: Db, token: nat, s: Step)
    requires LeaseShape(db) && Linked(db) && Keyed(db)
    ensures Keyed(After(o, db, token, s))
  {
    StepKeepsParts(o, db, token, s);
    StepKeepsInbox(o, db, token, s);
    StepKeepsOperations(o, db, token, s);
    StepKeepsEchoes(o, db, token, s);
    StepKeepsTimers(o, db, token, s);
    StepKeepsChats(o, db, token, s);
  }
}
