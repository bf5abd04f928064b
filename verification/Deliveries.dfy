/** The outbox protocol: scheduling, two-phase send, completion and failure of deliveries. */
module Deliveries {
  import opened Prelude
  import opened Domain
  import opened Database
  import opened InboxWork
  import opened Planning

  // ----- the scheduler

  /** Rows a worker holds or whose transmission is in doubt. */
  predicate Busy(r: OutboxRow) {
    r.state.Leased? || r.state.Sending? || r.state.Uncertain?
  }

  /** Rows whose outcome is open: they may still block later rows. */
  predicate Unsettled(r: OutboxRow) {
    r.state.Pending? || Busy(r) || r.state.Leased? || r.state.Blocked?
  }

  /** Rows of one message conflict, and a row without message conflicts with every row of its chat. */
  predicate Conflicting(a: OutboxRow, b: OutboxRow) {
    || (a.message.Some? && a.message == b.message)
    || (a.chat == b.chat && (a.message.None? || b.message.None?))
  }

  predicate DependencyMet(outbox: seq<OutboxRow>, r: OutboxRow) {
    r.dependsOn.Some? ==> r.dependsOn.value < |outbox| && outbox[r.dependsOn.value].state.Succeeded?
  }

  /** Nothing earlier that conflicts is open, and nothing that conflicts is in flight. */
  predicate Unobstructed(outbox: seq<OutboxRow>, i: nat)
    requires i < |outbox|
  {
    forall j :: 0 <= j < |outbox| && j != i && Unsettled(outbox[j]) && Conflicting(outbox[j], outbox[i]) ==>
      i < j && !Busy(outbox[j])
  }

  predicate Eligible(db: Db, i: nat, now: int)
    requires i < |db.outbox|
  {
    var r := db.outbox[i];
    r.state.Pending? && r.availableAt <= now && Current(db, r) && DependencyMet(db.outbox, r) && Unobstructed(db.outbox, i)
  }

  function NextDelivery(db: Db, now: int, from: nat := 0): (r: Option<nat>)
    requires from <= |db.outbox|
    ensures r.Some? ==> from <= r.value < |db.outbox| && Eligible(db, r.value, now)
    ensures r.Some? ==> forall j :: from <= j < r.value ==> !Eligible(db, j, now)
    ensures r.None? ==> forall j :: from <= j < |db.outbox| ==> !Eligible(db, j, now)
    decreases |db.outbox| - from
  {
    if from == |db.outbox| then None
    else if Eligible(db, from, now) then Some(from)
    else NextDelivery(db, now, from + 1)
  }

  function LeaseDelivery(db: Db, i: nat, lease: Lease): Db
    requires i < |db.outbox|
  {
    db.(outbox := db.outbox[i := db.outbox[i].(state := Leased, lease := Some(lease))])
  }

  function ClaimDelivery(db: Db, token: nat, now: int, ttl: int, clock: int): Result<Claim> {
    if !ValidLease(now, ttl) then Err(Invalid)
    else
      var t := Fence(now, clock);
      var next := NextDelivery(db, t);
      if next.None? then Err(NoWork)
      else Ok(Claim(LeaseDelivery(db, next.value, Lease(token, t + ttl)), next.value))
  }

  // ----- the send boundary

  predicate LiveDelivery(db: Db, id: int, token: nat, now: int) {
    HasRow(db.outbox, id) && HeldLease(db.outbox[id].lease, token, now)
  }

  predicate MatchesColumns(r: OutboxRow, d: Delivery) {
    && d.chat == r.chat && d.message == r.message && d.generation == r.generation && d.kind == r.operation
    && d.platform == r.platform && d.version.Valid()
  }

  /** A completed expiry of exactly this version backs a revoke that no event asked for. */
  predicate ExpiryDone(timers: seq<Timer>, m: nat, version: SourceVersion) {
    exists t :: 0 <= t < |timers| && TimerKey(timers[t]) == (m, Expire, version) && timers[t].state.TimerDone?
  }

  /** The version rule of the send boundary for a row that belongs to a message. */
  function MessageIntent(db: Db, m: nat, d: Delivery, e: Event): Result<()>
    requires m < |db.messages|
  {
    var current := db.messages[m].version;
    if d.version == e.version && d.kind == e.kind then
      if d.kind.MessageCreate? then
        var order := current.Compare(d.version);
        if order.Err? || order.value < 0 then Err(Conflict) else Ok(())
      else if d.kind.ReactionSet? || current == d.version then Ok(()) else Err(Conflict)
    else if d.kind.MessageRevoke? && current == d.version && ExpiryDone(db.timers, m, d.version) then Ok(())
    else Err(Conflict)
  }

  function StoredIntent(db: Db, id: nat): Result<()>
    requires id < |db.outbox|
  {
    var r := db.outbox[id];
    var d := r.payload;
    if !HasRow(db.inbox, r.inbox) then Err(Storage)
    else if !MatchesColumns(r, d) then Err(Conflict)
    else
      var e := db.inbox[r.inbox].payload;
      if r.message.None? then
        if RouteChatEvent(db.chats, e, [d]) == Ok(r.chat) && d.version == e.version then Ok(()) else Err(Conflict)
      else if !HasRow(db.messages, r.message.value) || db.messages[r.message.value].chat != r.chat then Err(Conflict)
      else MessageIntent(db, r.message.value, d, e)
  }

  function FindTarget(db: Db, d: Delivery): (r: Option<nat>)
    requires d.target.Some?
    ensures r.Some? ==> r.value < |db.parts| && Some(db.parts[r.value].key) == TargetOf(d)
    ensures r.Some? ==> d.message == Some(db.parts[r.value].message)
    ensures r.None? ==> forall p :: 0 <= p < |db.parts| ==>
              !(d.message == Some(db.parts[p].message) && Some(db.parts[p].key) == TargetOf(d))
  {
    FirstIndex(db.parts, (p: Part) => d.message == Some(p.message) && Some(p.key) == TargetOf(d))
  }

  /** Ownership, capability, generation and deletion rules for the part a delivery acts on. */
  predicate TargetAllows(p: Part, d: Delivery) {
    && (d.platform == Telegram ==> p.generation == d.generation)
    && !p.retired && (d.kind.MessageEdit? || d.kind.ReactionSet? ==> !p.deleted)
    && (d.kind.MessageEdit? && d.platform == WhatsApp ==> p.owned && EditText in p.caps)
    && (d.kind.MessageRevoke? ==> RemovalCapability(d.platform) in p.caps)
    && (d.kind.ReactionSet? ==> CanReact in p.caps)
  }

  predicate TargetReady(db: Db, d: Delivery) {
    d.target.Some? ==> var p := FindTarget(db, d); p.Some? && TargetAllows(db.parts[p.value], d)
  }

  predicate Undeleted(db: Db, d: Delivery) {
    d.message.Some? && d.kind.Additive() ==> HasRow(db.messages, d.message.value)
                                             && !db.messages[d.message.value].tombstone
  }

  function OwnEcho(db: Db, r: OutboxRow, eventId: string): EchoKey
    requires r.chat < |db.chats|
  {
    EchoKey(r.platform, NativeChat(db.chats[r.chat], r.platform), r.payload.echoActor, eventId, r.payload.kind)
  }

  function ReservedEcho(db: Db, id: nat): Echo
    requires id < |db.outbox| && db.outbox[id].chat < |db.chats|
  {
    var d := db.outbox[id].payload;
    Echo(OwnEcho(db, db.outbox[id], d.sendId), TargetOf(d), d.version.digest, id)
  }

  predicate Sendable(db: Db, id: int, token: nat, now: int) {
    LiveDelivery(db, id, token, now) && db.outbox[id].state.Leased? && Current(db, db.outbox[id])
  }

  function StartRow(db: Db, id: nat, at: int): Db
    requires id < |db.outbox| && db.outbox[id].chat < |db.chats|
  {
    db.(outbox := db.outbox[id := db.outbox[id].(state := Sending, startedAt := Some(at))],
        echoes := if db.outbox[id].payload.platform == WhatsApp then db.echoes + [ReservedEcho(db, id)] else db.echoes)
  }

  /** Commits that the transmission starts, and the exact WhatsApp echo reservation, before anything is transmitted. */
  function BeginSend(db: Db, id: int, token: nat, now: int, clocks: Clocks): Result<Db> {
    if now == ZERO_TIME then Err(Invalid)
    else
      var t := Fence(now, clocks.first);
      if !Sendable(db, id, token, t) then Err(LeaseLost)
      else
        var _ :- StoredIntent(db, id);
        var d := db.outbox[id].payload;
        if !TargetReady(db, d) || !Undeleted(db, d) then Err(Conflict)
        else if d.platform == WhatsApp && FindEcho(db.echoes, ReservedEcho(db, id).key).Some? then Err(Conflict)
        else if !LiveDelivery(db, id, token, Fence(t, clocks.third)) then Err(LeaseLost)
        else Ok(StartRow(db, id, Fence(t, clocks.second)))
  }

  // ----- completion

  /** A later version of the same kind wins; of another kind, a greater order wins. */
  function Greater(applied: SourceVersion, observed: SourceVersion): Result<SourceVersion> {
    if applied.kind == observed.kind then
      var order :- applied.Compare(observed);
      Ok(if order > 0 then applied else observed)
    else Ok(if applied.order > observed.order then applied else observed)
  }

  function Acknowledge(parts: seq<Part>, message: nat, key: Key, applied: SourceVersion, deleted: bool): Result<seq<Part>> {
    var p := FirstIndex(parts, (p: Part) => p.message == message && p.key == key);
    if p.None? then Err(Conflict)
    else
      var row := parts[p.value];
      var version :- Greater(applied, row.version);
      Ok(parts[p.value := row.(version := version, sourceDeleted := row.sourceDeleted || deleted)])
  }

  predicate AcceptablePart(p: DeliveredPart, d: Delivery, chat: Chat) {
    p.Valid() && p.ref.platform == d.platform && p.owned && p.ref.chat == NativeChat(chat, d.platform)
  }

  /** What the unique indexes of `bridge_part` refuse: a taken index, or a second active primary part. */
  predicate SlotTaken(parts: seq<Part>, message: nat, p: DeliveredPart) {
    exists q :: 0 <= q < |parts| && parts[q].message == message && parts[q].key.platform == p.ref.platform
                && (parts[q].index == p.index
                    || (p.role.Primary? && !p.retired && parts[q].role.Primary? && !parts[q].retired))
  }

  function LinkPart(parts: seq<Part>, m: nat, d: Delivery, p: DeliveredPart, version: SourceVersion, tombstone: bool)
    : Result<seq<Part>>
  {
    var deleted := p.deleted || tombstone;
    var known := FindPart(parts, RefKey(p.ref));
    if known.Some? then
      var row := parts[known.value];
      if row.message != m || row.index != p.index || row.role != p.role || row.owned != p.owned || row.caps != p.caps
      then Err(Conflict)
      else
        var acked :- Acknowledge(parts, m, RefKey(p.ref), version, deleted);
        var now := acked[known.value];
        Ok(acked[known.value := now.(deleted := now.deleted || deleted, retired := now.retired || p.retired)])
    else if SlotTaken(parts, m, p) then Err(Conflict)
    else Ok(parts + [Part(m, RefKey(p.ref), p.index, p.role, p.owned, p.caps, d.generation, deleted, p.retired, version,
                          deleted)])
  }

  function LinkParts(parts: seq<Part>, m: nat, d: Delivery, chat: Chat, results: seq<DeliveredPart>,
                     version: SourceVersion, tombstone: bool): Result<seq<Part>>
  {
    if results == [] then Ok(parts)
    else
      var before :- LinkParts(parts, m, d, chat, results[..|results| - 1], version, tombstone);
      var p := results[|results| - 1];
      if !AcceptablePart(p, d, chat) then Err(Invalid) else LinkPart(before, m, d, p, version, tombstone)
  }

  function AcknowledgeTarget(parts: seq<Part>, m: nat, d: Delivery, version: SourceVersion, tombstone: bool)
    : Result<seq<Part>>
  {
    if (d.kind.MessageEdit? || d.kind.MessageRevoke?) && d.target.Some?
    then Acknowledge(parts, m, RefKey(d.target.value), version, d.kind.MessageRevoke? || tombstone)
    else Ok(parts)
  }

  function MarkPlatformDeleted(parts: seq<Part>, m: nat, p: Platform): (s: seq<Part>)
    ensures |s| == |parts|
    ensures forall i :: 0 <= i < |s| ==>
              s[i] == if parts[i].message == m && parts[i].key.platform == p then parts[i].(deleted := true) else parts[i]
  {
    seq(|parts|, i requires 0 <= i < |parts| =>
      if parts[i].message == m && parts[i].key.platform == p then parts[i].(deleted := true) else parts[i])
  }

  function CompletedParts(parts: seq<Part>, m: nat, d: Delivery, chat: Chat, c: Completion, tombstone: bool)
    : Result<seq<Part>>
  {
    var linked :- LinkParts(parts, m, d, chat, c.parts, c.version, tombstone);
    var acked :- AcknowledgeTarget(linked, m, d, c.version, tombstone);
    Ok(if d.kind.MessageRevoke? && d.target.Some? then MarkPlatformDeleted(acked, m, d.target.value.platform) else acked)
  }

  function ReserveEcho(db: Db, echoes: seq<Echo>, id: nat, eventId: string): Result<seq<Echo>>
    requires id < |db.outbox| && db.outbox[id].chat < |db.chats|
  {
    var d := db.outbox[id].payload;
    var key := OwnEcho(db, db.outbox[id], eventId);
    var known := FindEcho(echoes, key);
    if eventId == "" || |eventId| > 256 || d.echoActor == "" || |d.echoActor| > 256 then Err(Invalid)
    else if known.Some? then if echoes[known.value].outbox != id then Err(Conflict) else Ok(echoes)
    else Ok(echoes + [Echo(key, TargetOf(d), d.version.digest, id)])
  }

  function ReserveEchoes(db: Db, id: nat, eventIds: seq<string>): Result<seq<Echo>>
    requires id < |db.outbox| && db.outbox[id].chat < |db.chats|
  {
    if eventIds == [] then Ok(db.echoes)
    else
      var before :- ReserveEchoes(db, id, eventIds[..|eventIds| - 1]);
      ReserveEcho(db, before, id, eventIds[|eventIds| - 1])
  }

  predicate InFlight(db: Db, id: int, token: nat, now: int) {
    LiveDelivery(db, id, token, now) && db.outbox[id].state.Sending? && db.outbox[id].chat < |db.chats|
  }

  function FinishRow(db: Db, id: nat, state: OutboxState): Db
    requires id < |db.outbox|
  {
    db.(outbox := db.outbox[id := db.outbox[id].(state := state, lease := None)])
  }

  function CompletionShape(db: Db, id: nat, c: Completion): Result<nat>
    requires id < |db.outbox| && db.outbox[id].chat < |db.chats|
  {
    var d := db.outbox[id].payload;
    if d.generation != db.chats[db.outbox[id].chat].generation || d.version != c.version then Err(Conflict)
    else if d.message.None? then Err(Invalid)
    else if !HasRow(db.messages, d.message.value) then Err(Storage)
    else if d.kind.MessageCreate? && c.parts == [] then Err(Invalid)
    else Ok(d.message.value)
  }

  /** The new parts and echoes of a completion, before the row itself is finished. */
  function RecordResult(db: Db, id: nat, c: Completion): Result<Db>
    requires id < |db.outbox| && db.outbox[id].chat < |db.chats|
  {
    var m :- CompletionShape(db, id, c);
    if m >= |db.messages| then Err(Storage)
    else
      var chat := db.chats[db.outbox[id].chat];
      var parts :- CompletedParts(db.parts, m, db.outbox[id].payload, chat, c, db.messages[m].tombstone);
      var echoes :- ReserveEchoes(db, id, c.echoKeys);
      Ok(db.(parts := parts, echoes := echoes))
  }

  function CompleteDelivery(o: Options, db: Db, id: int, token: nat, c: Completion, now: int, clocks: Clocks): Result<Db> {
    if now == ZERO_TIME || !c.version.Valid() || |c.parts| > 1024 || |c.echoKeys| > 1024 then Err(Invalid)
    else
      var t := Fence(now, clocks.first);
      if !InFlight(db, id, token, t) then Err(LeaseLost)
      else
        var recorded :- RecordResult(db, id, c);
        if o.completionBytes(c) > MAX_EVENT_BYTES then Err(Invalid)
        else if !LiveDelivery(recorded, id, token, Fence(t, clocks.second)) then Err(LeaseLost)
        else Ok(FinishRow(recorded, id, Succeeded))
  }

  // ----- topics

  predicate TopicTaken(chats: seq<Chat>, i: nat, topic: TopicRef)
    requires i < |chats|
  {
    exists j :: 0 <= j < |chats| && j != i && chats[j].tgChat == chats[i].tgChat && chats[j].topic == Some(topic.thread)
  }

  function BindRow(db: Db, i: nat, topic: TopicRef): Db
    requires i < |db.chats| && topic.generation >= 0
  {
    db.(chats := db.chats[i := db.chats[i].(topic := Some(topic.thread), generation := topic.generation, state := Active)])
  }

  function ApplyTopic(db: Db, i: nat, d: Delivery, topic: TopicRef): Result<Db>
    requires i < |db.chats| && topic.generation > 0
  {
    var c := db.chats[i];
    if d.platform != Telegram || d.message.Some? || !(d.kind.TopicCreate? || d.kind.TopicRename?)
       || d.generation != c.generation || c.tgChat != topic.chat then Err(Conflict)
    else if d.kind.TopicCreate? then
      if c.state != Discovered || topic.generation != c.generation + 1 || TopicTaken(db.chats, i, topic) then Err(Conflict)
      else Ok(BindRow(db, i, topic))
    else if c.topic.None? then Err(Storage)
    else if topic.generation != c.generation || Some(topic.thread) != c.topic || c.state != Active then Err(Conflict)
    else Ok(db)
  }

  function CompleteTopicDelivery(db: Db, id: int, token: nat, topic: TopicRef, now: int, clocks: Clocks): Result<Db> {
    if now == ZERO_TIME || topic.thread <= 0 || topic.chat == 0 || topic.generation <= 0 then Err(Invalid)
    else
      var t := Fence(now, clocks.first);
      if !InFlight(db, id, token, t) then Err(LeaseLost)
      else
        var bound :- ApplyTopic(db, db.outbox[id].chat, db.outbox[id].payload, topic);
        if !LiveDelivery(bound, id, token, Fence(t, clocks.second)) then Err(LeaseLost)
        else Ok(FinishRow(bound, id, Succeeded))
  }

  // ----- failure and recovery

  datatype Decision = Decision(state: OutboxState, cause: ErrorClass, availableAt: int)

  /** Which failure decisions are well formed, whatever the row. */
  predicate ValidDecision(d: Decision, now: int) {
    && (d.state.Pending? || d.state.Uncertain? || d.state.Blocked? || d.state.Dead?) && !d.cause.OtherClass?
    && (d.state.Pending? ==> d.availableAt >= now)
  }

  /** A retry is allowed only before the send began and for passing errors; doubt must be recorded as doubt. */
  predicate AllowedDecision(d: Decision, started: bool) {
    && (d.state.Pending? ==> !started && (d.cause.Transient? || d.cause.RateLimited?))
    && (d.state.Uncertain? ==> d.cause.UncertainClass?)
  }

  function FailRow(db: Db, id: nat, d: Decision): Db
    requires id < |db.outbox|
  {
    var row := db.outbox[id].(state := d.state, availableAt := d.availableAt, errorClass := Some(d.cause), lease := None);
    db.(outbox := db.outbox[id := row])
  }

  function FailDelivery(db: Db, id: int, token: nat, d: Decision, now: int, clocks: Clocks): Result<Db> {
    if now == ZERO_TIME || !ValidDecision(d, now) then Err(Invalid)
    else
      var t := Fence(now, clocks.first);
      if !LiveDelivery(db, id, token, t) || !(db.outbox[id].state.Leased? || db.outbox[id].state.Sending?)
      then Err(LeaseLost)
      else if !AllowedDecision(d, db.outbox[id].startedAt.Some?) then Err(Invalid)
      else if !LiveDelivery(db, id, token, Fence(t, clocks.second)) then Err(LeaseLost)
      else Ok(FailRow(db, id, d))
  }

  predicate ExpiredLease(lease: Option<Lease>, now: int) {
    lease.Some? && lease.value.until <= now
  }

  function RecoverInboxRow(r: InboxRow, now: int): InboxRow {
    if r.state.InboxLeased? && ExpiredLease(r.lease, now) then r.(state := InboxPending, lease := None) else r
  }

  function RecoverOutboxRow(r: OutboxRow, now: int): OutboxRow {
    if (r.state.Leased? || r.state.Sending?) && ExpiredLease(r.lease, now)
    then r.(state := if r.startedAt.None? then Pending else Uncertain, lease := None) else r
  }

  function RecoverTimerRow(r: Timer, now: int): Timer {
    if r.state.TimerLeased? && ExpiredLease(r.lease, now) then r.(state := TimerPending, lease := None) else r
  }

  /** Expired unsent work becomes pending again; an expired send is in doubt and stays so. */
  function RecoverExpiredLeases(db: Db, now: int): Result<Db> {
    if now == ZERO_TIME then Err(Invalid)
    else Ok(db.(inbox := seq(|db.inbox|, i requires 0 <= i < |db.inbox| => RecoverInboxRow(db.inbox[i], now)),
                outbox := seq(|db.outbox|, i requires 0 <= i < |db.outbox| => RecoverOutboxRow(db.outbox[i], now)),
                timers := seq(|db.timers|, i requires 0 <= i < |db.timers| => RecoverTimerRow(db.timers[i], now))))
  }

  /** An echo lookup must name the whole tuple. */
  predicate CompleteEcho(key: EchoKey, target: Option<MessageRef>, digest: string) {
    && key.chat != "" && key.actor != "" && key.eventId != "" && key.kind != OtherKind("") && digest != ""
    && (target.Some? ==> target.value.Valid())
  }

  /** `MatchEcho`: the tuple is reserved with exactly this target and digest. */
  predicate MatchEcho(echoes: seq<Echo>, key: EchoKey, target: Option<Key>, digest: string) {
    exists e :: 0 <= e < |echoes| && echoes[e].key == key && echoes[e].target == target && echoes[e].digest == digest
  }
}
