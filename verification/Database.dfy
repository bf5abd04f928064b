/**
 * The bridge tables of `internal/store/migrations/001-initial.sql`. Rows are never deleted, so a table is a sequence
 * and a row id is its position (the source's id minus one). A part and its source state are always inserted together
 * and share a row here.
 */
module Database {
  import opened Prelude
  import opened Domain

  const ZERO_TIME: int := -62135596800000
  const HOUR: int := 3600000

  /** Readings of the local clock, in the order the transaction takes them. */
  datatype Clocks = Clocks(first: int, second: int, third: int)

  /** `fenceTime`: the later of the caller's time and the local clock. */
  function Fence(now: int, clock: int): int {
    Max(now, clock)
  }

  /** Queue caps, and the encoded sizes the caps and the size checks use; any size functions are allowed. */
  datatype Options = Options(maxInboxCount: int, maxInboxBytes: int, maxOutboxCount: int, maxOutboxBytes: int,
                             eventBytes: Event -> nat, deliveryBytes: Delivery -> nat, completionBytes: Completion -> nat)

  datatype Lease = Lease(token: nat, until: int)

  datatype ChatState = Discovered | Active | Closed | Missing | UncertainTopic | BlockedTopic

  datatype Chat = Chat(jid: string, tgChat: int, topic: Option<int>, generation: nat, state: ChatState, title: string,
                       source: string, historyPartial: bool)

  datatype Message = Message(chat: nat, origin: Platform, author: string, logicalKey: Key, createdAt: int,
                             tombstone: bool, version: SourceVersion, text: Option<TextContent>, kept: bool)

  datatype Part = Part(message: nat, key: Key, index: int, role: Role, owned: bool, caps: set<Capability>,
                       generation: int, deleted: bool, retired: bool, version: SourceVersion, sourceDeleted: bool)

  datatype InboxState = InboxPending | InboxLeased | InboxDone | Quarantined

  datatype DedupeKey = DedupeKey(source: Platform, chat: string, author: string, id: string, actor: string,
                                 key: string, epoch: string)

  datatype TargetKey = RefTarget(key: Key) | ChatTarget(platform: Platform, chat: string)

  datatype InboxRow = InboxRow(dedupe: DedupeKey, target: TargetKey, payload: Event, state: InboxState,
                               availableAt: int, lease: Option<Lease>)

  datatype OutboxState = Pending | Leased | Sending | Succeeded | Uncertain | Blocked | Dead | Superseded

  datatype OutboxRow = OutboxRow(inbox: nat, chat: nat, message: Option<nat>, operationKey: string, platform: Platform,
                                 operation: Kind, dependsOn: Option<nat>, generation: int, payload: Delivery,
                                 sendId: string, state: OutboxState, availableAt: int, lease: Option<Lease>,
                                 startedAt: Option<int>, errorClass: Option<ErrorClass>)

  /** The primary key of `bridge_echo`. */
  datatype EchoKey = EchoKey(platform: Platform, chat: string, actor: string, eventId: string, kind: Kind)

  datatype Echo = Echo(key: EchoKey, target: Option<Key>, digest: string, outbox: nat)

  datatype TimerKind = Expire | MappingWait

  datatype TimerState = TimerPending | TimerLeased | TimerDone | TimerCancelled

  datatype Timer = Timer(message: nat, kind: TimerKind, version: SourceVersion, deadline: int, state: TimerState,
                         lease: Option<Lease>)

  datatype Cursor = Cursor(next: int, epoch: string)

  datatype Db = Db(chats: seq<Chat>, messages: seq<Message>, parts: seq<Part>, inbox: seq<InboxRow>,
                   outbox: seq<OutboxRow>, echoes: seq<Echo>, timers: seq<Timer>, cursor: Option<Cursor>)

  const EMPTY: Db := Db([], [], [], [], [], [], [], None)

  /** The chat id a platform's own references carry. */
  function NativeChat(c: Chat, p: Platform): string {
    if p == WhatsApp then c.jid else Decimal(c.tgChat)
  }

  predicate HeldLease(lease: Option<Lease>, token: nat, now: int) {
    lease.Some? && lease.value.token == token && lease.value.until > now
  }

  predicate HasRow<T>(table: seq<T>, id: int) {
    0 <= id < |table|
  }

  function FindChat(chats: seq<Chat>, jid: string): (r: Option<nat>)
    ensures r.Some? ==> r.value < |chats| && chats[r.value].jid == jid
    ensures r.None? ==> forall i :: 0 <= i < |chats| ==> chats[i].jid != jid
  {
    FirstIndex(chats, (c: Chat) => c.jid == jid)
  }

  function FindPart(parts: seq<Part>, key: Key): (r: Option<nat>)
    ensures r.Some? ==> r.value < |parts| && parts[r.value].key == key && forall i :: 0 <= i < r.value ==> parts[i].key != key
    ensures r.None? ==> forall i :: 0 <= i < |parts| ==> parts[i].key != key
  {
    FirstIndex(parts, (p: Part) => p.key == key)
  }

  function FindInbox(inbox: seq<InboxRow>, dedupe: DedupeKey): (r: Option<nat>)
    ensures r.Some? ==> r.value < |inbox| && inbox[r.value].dedupe == dedupe
    ensures r.None? ==> forall i :: 0 <= i < |inbox| ==> inbox[i].dedupe != dedupe
  {
    FirstIndex(inbox, (i: InboxRow) => i.dedupe == dedupe)
  }

  function FindOperation(outbox: seq<OutboxRow>, operationKey: string): (r: Option<nat>)
    ensures r.Some? ==> r.value < |outbox| && outbox[r.value].operationKey == operationKey
    ensures r.None? ==> forall i :: 0 <= i < |outbox| ==> outbox[i].operationKey != operationKey
  {
    FirstIndex(outbox, (o: OutboxRow) => o.operationKey == operationKey)
  }

  function FindEcho(echoes: seq<Echo>, key: EchoKey): (r: Option<nat>)
    ensures r.Some? ==> r.value < |echoes| && echoes[r.value].key == key
    ensures r.None? ==> forall i :: 0 <= i < |echoes| ==> echoes[i].key != key
  {
    FirstIndex(echoes, (e: Echo) => e.key == key)
  }

  function TimerKey(t: Timer): (nat, TimerKind, SourceVersion) {
    (t.message, t.kind, t.version)
  }

  function FindTimer(timers: seq<Timer>, message: nat, kind: TimerKind, version: SourceVersion): (r: Option<nat>)
    ensures r.Some? ==> r.value < |timers| && TimerKey(timers[r.value]) == (message, kind, version)
    ensures r.None? ==> forall i :: 0 <= i < |timers| ==> TimerKey(timers[i]) != (message, kind, version)
  {
    FirstIndex(timers, (t: Timer) => TimerKey(t) == (message, kind, version))
  }

  function TargetOf(d: Delivery): Option<Key> {
    if d.target.Some? then Some(RefKey(d.target.value)) else None
  }

  /** The topic is the one the row was planned for, and the chat is in the state the operation needs. */
  predicate Current(db: Db, r: OutboxRow) {
    && r.chat < |db.chats| && r.generation == db.chats[r.chat].generation
    && db.chats[r.chat].state == (if r.operation.TopicCreate? then Discovered else Active)
  }
}
