/** What no run ever takes back: identities, deletions, finished work, bindings and the cursor. */
module Evolution {
  import opened Prelude
  import opened Domain
  import opened Database
  import opened Admission
  import opened Planning
  import opened Deliveries
  import opened Timers
  import opened Chats
  import opened Queues
  import opened QuietTransactions

  predicate ChatGrows(a: Chat, b: Chat) {
    && b.jid == a.jid && b.tgChat == a.tgChat && a.generation <= b.generation && (a.topic.Some? ==> b.topic.Some?)
    && (b.generation == a.generation ==> b.topic == a.topic) && (a.state != Discovered ==> b.state != Discovered)
  }

  /** A deletion never clears, and the text of a deleted message can only be emptied. */
  predicate MessageGrows(a: Message, b: Message) {
    && b.(tombstone := a.tombstone, version := a.version, text := a.text, kept := a.kept) == a
    && (a.tombstone ==> b.tombstone && (b.text == a.text || b.text == None))
  }

  predicate PartGrows(a: Part, b: Part) {
    && b.(deleted := a.deleted, retired := a.retired, version := a.version, sourceDeleted := a.sourceDeleted) == a
    && (a.deleted ==> b.deleted) && (a.retired ==> b.retired) && (a.sourceDeleted ==> b.sourceDeleted)
  }

  predicate ChatsGrow(a: seq<Chat>, b: seq<Chat>) {
    |a| <= |b| && forall i :: 0 <= i < |a| ==> ChatGrows(a[i], b[i])
  }

  predicate MessagesGrow(a: seq<Message>, b: seq<Message>) {
    |a| <= |b| && forall i :: 0 <= i < |a| ==> MessageGrows(a[i], b[i])
  }

  predicate PartsGrow(a: seq<Part>, b: seq<Part>) {
    |a| <= |b| && forall i :: 0 <= i < |a| ==> PartGrows(a[i], b[i])
  }

  predicate CursorGrows(a: Option<Cursor>, b: Option<Cursor>) {
    a.Some? ==> b.Some? && b.value.epoch == a.value.epoch && a.value.next <= b.value.next
  }

  predicate Grows(a: Db, b: Db) {
    && ChatsGrow(a.chats, b.chats) && MessagesGrow(a.messages, b.messages) && PartsGrow(a.parts, b.parts)
    && a.echoes <= b.echoes && CursorGrows(a.cursor, b.cursor)
  }

  // ----- parts of a completion

  lemma AcknowledgeGrows(parts: seq<Part>, m: nat, key: Key, applied: SourceVersion, deleted: bool)
    requires Acknowledge(parts, m, key, applied, deleted).Ok?
    ensures PartsGrow(parts, Acknowledge(parts, m, key, applied, deleted).value)
    ensures |Acknowledge(parts, m, key, applied, deleted).value| == |parts|
  {
  }

  lemma PartsGrowTransitive(a: seq<Part>, b: seq<Part>, c: seq<Part>)
    requires PartsGrow(a, b) && PartsGrow(b, c)
    ensures PartsGrow(a, c)
  {
    forall i | 0 <= i < |a| ensures PartGrows(a[i], c[i]) {
      assert PartGrows(a[i], b[i]) && PartGrows(b[i], c[i]);
    }
  }

  lemma LinkPartGrows(parts: seq<Part>, m: nat, d: Delivery, p: DeliveredPart, version: SourceVersion, tombstone: bool)
    requires LinkPart(parts, m, d, p, version, tombstone).Ok?
    ensures PartsGrow(parts, LinkPart(parts, m, d, p, version, tombstone).value)
  {
    var known := FindPart(parts, RefKey(p.ref));
    if known.Some? {
      AcknowledgeGrows(parts, m, RefKey(p.ref), version, p.deleted || tombstone);
      var acked := Acknowledge(parts, m, RefKey(p.ref), version, p.deleted || tombstone).value;
      PartsGrowTransitive(parts, acked, LinkPart(parts, m, d, p, version, tombstone).value);
    }
  }

  lemma {:induction false} LinkPartsGrow(parts: seq<Part>, m: nat, d: Delivery, chat: Chat, results: seq<DeliveredPart>,
                                         version: SourceVersion, tombstone: bool)
    requires LinkParts(parts, m, d, chat, results, version, tombstone).Ok?
    ensures PartsGrow(parts, LinkParts(parts, m, d, chat, results, version, tombstone).value)
  {
    if results != [] {
      var n := |results| - 1;
      LinkPartsGrow(parts, m, d, chat, results[..n], version, tombstone);
      var before := LinkParts(parts, m, d, chat, results[..n], version, tombstone).value;
      LinkPartGrows(before, m, d, results[n], version, tombstone);
      PartsGrowTransitive(parts, before, LinkPart(before, m, d, results[n], version, tombstone).value);
    }
  }

  lemma CompletedPartsGrow(parts: seq<Part>, m: nat, d: Delivery, chat: Chat, c: Completion, tombstone: bool)
    requires CompletedParts(parts, m, d, chat, c, tombstone).Ok?
    ensures PartsGrow(parts, CompletedParts(parts, m, d, chat, c, tombstone).value)
  {
    LinkPartsGrow(parts, m, d, chat, c.parts, c.version, tombstone);
    var linked := LinkParts(parts, m, d, chat, c.parts, c.version, tombstone).value;
    var acked := AcknowledgeTarget(linked, m, d, c.version, tombstone).value;
    if (d.kind.MessageEdit? || d.kind.MessageRevoke?) && d.target.Some? {
      AcknowledgeGrows(linked, m, RefKey(d.target.value), c.version, d.kind.MessageRevoke? || tombstone);
    }
    PartsGrowTransitive(parts, linked, acked);
    PartsGrowTransitive(parts, acked, CompletedParts(parts, m, d, chat, c, tombstone).value);
  }

  lemma {:induction false} ReserveEchoesExtends(db: Db, id: nat, eventIds: seq<string>)
    requires id < |db.outbox| && db.outbox[id].chat < |db.chats| && ReserveEchoes(db, id, eventIds).Ok?
    ensures db.echoes <= ReserveEchoes(db, id, eventIds).value
  {
    if eventIds != [] {
      ReserveEchoesExtends(db, id, eventIds[..|eventIds| - 1]);
    }
  }

  // ----- transactions that change the non-queue tables

  lemma EntombGrows(db: Db, m: nat)
    requires m < |db.messages|
    ensures Grows(db, Entomb(db, m))
  {
  }

  lemma CreateSourceGrows(db: Db, e: Event, chat: nat, now: int)
    requires e.target.Some? && chat < |db.chats| && CreateSource(db, e, chat, now).Ok?
    ensures Grows(db, CreateSource(db, e, chat, now).value.db)
  {
  }

  lemma ReviseGrows(db: Db, p: nat, version: SourceVersion, text: Option<TextContent>)
    requires p < |db.parts| && db.parts[p].message < |db.messages|
    requires !db.messages[db.parts[p].message].tombstone || text.None?
    ensures Grows(db, Revise(db, p, version, text))
  {
  }

  lemma GrowsTransitive(a: Db, b: Db, c: Db)
    requires Grows(a, b) && Grows(b, c)
    ensures Grows(a, c)
  {
    forall i | 0 <= i < |a.chats| ensures ChatGrows(a.chats[i], c.chats[i]) {
      assert ChatGrows(a.chats[i], b.chats[i]) && ChatGrows(b.chats[i], c.chats[i]);
    }
    forall i | 0 <= i < |a.messages| ensures MessageGrows(a.messages[i], c.messages[i]) {
      assert MessageGrows(a.messages[i], b.messages[i]) && MessageGrows(b.messages[i], c.messages[i]);
    }
    PartsGrowTransitive(a.parts, b.parts, c.parts);
  }

  lemma RevokeGrows(db: Db, p: nat, version: SourceVersion)
    requires p < |db.parts| && db.parts[p].message < |db.messages|
    ensures Grows(db, Entomb(Revise(db, p, version, None), db.parts[p].message))
  {
    var revised := Revise(db, p, version, None);
    ReviseGrows(db, p, version, None);
    EntombGrows(revised, db.parts[p].message);
    GrowsTransitive(db, revised, Entomb(revised, db.parts[p].message));
  }

  lemma ApplySourceGrows(db: Db, e: Event, ds: seq<Delivery>, now: int)
    requires e.target.Some? && ApplySource(db, e, ds, now).Ok?
    ensures Grows(db, ApplySource(db, e, ds, now).value.db)
  {
    var p := FindPart(db.parts, RefKey(e.target.value));
    if p.None? {
      CreateSourceGrows(db, e, SourceChat(db, e, ds).value, now);
    } else if e.kind.MessageRevoke? {
      RevokeGrows(db, p.value, e.version);
    } else if !db.messages[db.parts[p.value].message].tombstone {
      ReviseGrows(db, p.value, e.version, e.text);
    }
  }

  lemma ApplyEventGrows(db: Db, e: Event, ds: seq<Delivery>, now: int)
    requires ApplyEvent(db, e, ds, now).Ok?
    ensures Grows(db, ApplyEvent(db, e, ds, now).value.db)
  {
    if e.target.Some? {
      ApplySourceGrows(db, e, ds, now);
    }
  }

  lemma PlanEventGrows(o: Options, db: Db, e: Event, inbox: int, token: nat, ds: seq<Delivery>, timers: seq<TimerSpec>,
                       now: int, clocks: Clocks)
    requires PlanEvent(o, db, e, inbox, token, ds, timers, now, clocks).Ok?
    ensures Grows(db, PlanEvent(o, db, e, inbox, token, ds, timers, now, clocks).value)
  {
    var fenced := Fence(now, clocks.first);
    var a := ApplyEvent(db, e, ds, fenced).value;
    ApplyEventGrows(db, e, ds, fenced);
    if !a.suppress {
      InsertAllAppends(o, a.db, inbox, ds, a.message, a.chat, fenced);
      ScheduleAllAppends(InsertAll(o, a.db, inbox, ds, a.message, a.chat, fenced).value, timers, a.message);
    }
  }

  lemma CompleteDeliveryGrows(o: Options, db: Db, id: int, token: nat, c: Completion, now: int, clocks: Clocks)
    requires CompleteDelivery(o, db, id, token, c, now, clocks).Ok?
    ensures Grows(db, CompleteDelivery(o, db, id, token, c, now, clocks).value)
  {
    var m := CompletionShape(db, id, c).value;
    CompletedPartsGrow(db.parts, m, db.outbox[id].payload, db.chats[db.outbox[id].chat], c, db.messages[m].tombstone);
    ReserveEchoesExtends(db, id, c.echoKeys);
  }

  lemma ApplyTimerGrows(o: Options, db: Db, t: Timer, ds: seq<Delivery>, now: int)
    requires HasRow(db.messages, t.message) && ApplyTimer(o, db, t, ds, now).Ok?
    ensures Grows(db, ApplyTimer(o, db, t, ds, now).value)
  {
    var m := t.message;
    var inbox := if ds == [] then 0 else OriginInbox(db.outbox, m).value;
    InsertRevokesAppends(o, db, t, db.messages[m].chat, inbox, ds, now);
    var planned := InsertRevokes(o, db, t, db.messages[m].chat, inbox, ds, now).value;
    if t.kind.Expire? {
      EntombGrows(EmptyText(planned, m), m);
    }
  }

  lemma FrameGrows(a: Db, b: Db)
    requires b == a.(inbox := b.inbox, outbox := b.outbox, timers := b.timers)
    ensures Grows(a, b)
  {
  }

  lemma BatchGrows(o: Options, db: Db, events: seq<Event>, next: int, epoch: string, clock: int)
    requires AcceptTelegramBatch(o, db, events, next, epoch, clock).Ok?
    ensures Grows(db, AcceptTelegramBatch(o, db, events, next, epoch, clock).value)
  {
  }

  lemma BeginSendGrows(db: Db, id: int, token: nat, now: int, clocks: Clocks)
    requires BeginSend(db, id, token, now, clocks).Ok?
    ensures Grows(db, BeginSend(db, id, token, now, clocks).value)
  {
  }

  lemma BindRowGrows(db: Db, i: nat, topic: TopicRef)
    requires i < |db.chats| && topic.generation == db.chats[i].generation + 1
    ensures Grows(db, BindRow(db, i, topic))
  {
  }

  lemma CompleteTopicGrows(db: Db, id: int, token: nat, topic: TopicRef, now: int, clocks: Clocks)
    requires CompleteTopicDelivery(db, id, token, topic, now, clocks).Ok?
    ensures Grows(db, CompleteTopicDelivery(db, id, token, topic, now, clocks).value)
  {
    if db.outbox[id].payload.kind.TopicCreate? {
      BindRowGrows(db, db.outbox[id].chat, topic);
    }
  }

  lemma BindTopicGrows(db: Db, jid: string, topic: TopicRef)
    requires BindTopic(db, jid, topic).Ok?
    ensures Grows(db, BindTopic(db, jid, topic).value)
  {
    var i := FindChat(db.chats, jid).value;
    if topic.generation == db.chats[i].generation + 1 {
      BindRowGrows(db, i, topic);
    } else {
      FrameGrows(db, db);
    }
  }

  lemma DiscoverGrows(db: Db, c: Candidate, tgChat: int)
    requires DiscoverChat(db, c, tgChat).Ok?
    ensures Grows(db, DiscoverChat(db, c, tgChat).value)
  {
  }

  lemma ChatStateGrows(db: Db, chat: int, generation: int, state: ChatState)
    requires SetChatState(db, chat, generation, state).Ok?
    ensures Grows(db, SetChatState(db, chat, generation, state).value)
  {
  }

  lemma RetireGrows(db: Db, ref: MessageRef, expected: SourceVersion)
    requires RetirePart(db, ref, expected).Ok?
    ensures Grows(db, RetirePart(db, ref, expected).value)
  {
  }

  lemma KeepGrows(db: Db, ref: MessageRef, expected: SourceVersion, kept: bool)
    requires SetKept(db, ref, expected, kept).Ok?
    ensures Grows(db, SetKept(db, ref, expected, kept).value)
  {
  }

  lemma TombstoneGrows(db: Db, m: int)
    requires TombstoneMessage(db, m).Ok?
    ensures Grows(db, TombstoneMessage(db, m).value)
  {
    if HasRow(db.messages, m) {
      EntombGrows(db, m);
    } else {
      FrameGrows(db, db);
    }
  }

  // ----- queue rows over any number of steps

  predicate OutboxRowGrows(r: OutboxRow, s: OutboxRow) {
    && SameIntentRow(r, s) && (!Open(r) ==> s == r)
    && (r.startedAt.Some? ==>
          s.startedAt == r.startedAt && !s.state.Pending? && !s.state.Leased? && !s.state.Superseded?)
  }

  predicate InboxRowGrows(r: InboxRow, s: InboxRow) {
    && s.(state := r.state, availableAt := r.availableAt, lease := r.lease) == r
    && (r.state.InboxDone? || r.state.Quarantined? ==> s == r)
  }

  predicate TimerGrows(r: Timer, s: Timer) {
    && s.(state := r.state, lease := r.lease) == r
    && (r.state.TimerDone? || r.state.TimerCancelled? ==> s == r)
  }

  predicate QueuesGrow(a: Db, b: Db) {
    && |a.outbox| <= |b.outbox| && (forall i :: 0 <= i < |a.outbox| ==> OutboxRowGrows(a.outbox[i], b.outbox[i]))
    && |a.inbox| <= |b.inbox| && (forall i :: 0 <= i < |a.inbox| ==> InboxRowGrows(a.inbox[i], b.inbox[i]))
    && |a.timers| <= |b.timers| && (forall i :: 0 <= i < |a.timers| ==> TimerGrows(a.timers[i], b.timers[i]))
  }

  lemma QuietQueuesGrow(a: Db, b: Db)
    requires LeaseShape(a) && Quiet(a, b)
    ensures QueuesGrow(a, b)
  {
    forall i | 0 <= i < |a.outbox| ensures OutboxRowGrows(a.outbox[i], b.outbox[i]) {
      assert OutboxShape(a.outbox[i]) && QuietRow(a.outbox[i], b.outbox[i]);
    }
    forall i | 0 <= i < |a.inbox| ensures InboxRowGrows(a.inbox[i], b.inbox[i]) {
      assert QuietInboxRow(a.inbox[i], b.inbox[i]);
    }
    forall i | 0 <= i < |a.timers| ensures TimerGrows(a.timers[i], b.timers[i]) {
      assert QuietTimer(a.timers[i], b.timers[i]);
    }
  }

  lemma QueuesGrowTransitive(a: Db, b: Db, c: Db)
    requires QueuesGrow(a, b) && QueuesGrow(b, c)
    ensures QueuesGrow(a, c)
  {
    forall i | 0 <= i < |a.outbox| ensures OutboxRowGrows(a.outbox[i], c.outbox[i]) {
      assert OutboxRowGrows(a.outbox[i], b.outbox[i]) && OutboxRowGrows(b.outbox[i], c.outbox[i]);
    }
    forall i | 0 <= i < |a.inbox| ensures InboxRowGrows(a.inbox[i], c.inbox[i]) {
      assert InboxRowGrows(a.inbox[i], b.inbox[i]) && InboxRowGrows(b.inbox[i], c.inbox[i]);
    }
    forall i | 0 <= i < |a.timers| ensures TimerGrows(a.timers[i], c.timers[i]) {
      assert TimerGrows(a.timers[i], b.timers[i]) && TimerGrows(b.timers[i], c.timers[i]);
    }
  }

  predicate Evolves(a: Db, b: Db) {
    Grows(a, b) && QueuesGrow(a, b)
  }
}
