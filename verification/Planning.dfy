/** Planning an admitted event: `PlanEventWithTimers`, `applySource`, `insertDelivery` and `routeChatEvent`. */
module Planning {
  import opened Prelude
  import opened Domain
  import opened Database
  import opened InboxWork

  // ----- the outbox

  /** Rows that count against the outbox caps. */
  predicate OutboxUnresolved(r: OutboxRow) {
    !r.state.Succeeded? && !r.state.Dead? && !r.state.Superseded?
  }

  function OutboxSize(o: Options, r: OutboxRow): nat {
    if OutboxUnresolved(r) then o.deliveryBytes(r.payload) else 0
  }

  function OutboxCounts(outbox: seq<OutboxRow>): (w: seq<nat>)
    ensures |w| == |outbox| && forall i :: 0 <= i < |w| ==> w[i] == if OutboxUnresolved(outbox[i]) then 1 else 0
  {
    seq(|outbox|, i requires 0 <= i < |outbox| => if OutboxUnresolved(outbox[i]) then 1 else 0)
  }

  function OutboxBytes(o: Options, outbox: seq<OutboxRow>): (w: seq<nat>)
    ensures |w| == |outbox| && forall i :: 0 <= i < |w| ==> w[i] == OutboxSize(o, outbox[i])
  {
    seq(|outbox|, i requires 0 <= i < |outbox| => OutboxSize(o, outbox[i]))
  }

  /** Unsent edits give way to a newer edit; unsent creates, edits and reactions give way to a deletion. */
  predicate Supersedable(r: OutboxRow, message: nat, editsOnly: bool) {
    && r.message == Some(message) && r.startedAt.None? && (r.state.Pending? || r.state.Leased?)
    && if editsOnly then r.operation.MessageEdit? else r.operation.Additive()
  }

  function Supersede(outbox: seq<OutboxRow>, message: nat, editsOnly: bool): (s: seq<OutboxRow>)
    ensures |s| == |outbox|
    ensures forall i :: 0 <= i < |s| ==>
              s[i] == if Supersedable(outbox[i], message, editsOnly)
                      then outbox[i].(state := Superseded, lease := None) else outbox[i]
  {
    seq(|outbox|, i requires 0 <= i < |outbox| =>
      if Supersedable(outbox[i], message, editsOnly)
      then outbox[i].(state := Superseded, lease := None) else outbox[i])
  }

  predicate IntentFields(d: Delivery, message: Option<nat>) {
    && d.operationKey != "" && |d.operationKey| <= 512 && d.chat >= 0 && d.generation >= 0 && d.version.Valid()
    && |d.sendId| <= 256 && (d.text.Some? ==> d.text.value.Valid()) && (d.target.Some? ==> d.target.value.Valid())
    && d.kind.Operation() && (d.target.Some? ==> d.target.value.platform == d.platform)
    && (d.kind.MessageCreate? ==> message.Some?)
    && (d.kind.MessageEdit? || d.kind.MessageRevoke? || d.kind.ReactionSet? ==> message.Some? && d.target.Some?)
    && (d.platform == WhatsApp ==> d.sendId != "" && d.echoActor != "" && |d.echoActor| <= 256)
  }

  /** A Telegram target that is a known part must belong to the topic generation of the intent. */
  predicate TargetGeneration(parts: seq<Part>, d: Delivery, message: Option<nat>) {
    d.target.Some? && d.platform == Telegram ==>
      forall p :: 0 <= p < |parts| && Some(parts[p].message) == message && Some(parts[p].key) == TargetOf(d) ==>
        parts[p].generation == d.generation
  }

  predicate DependencyMatches(outbox: seq<OutboxRow>, d: Delivery, message: Option<nat>) {
    d.dependsOn.Some? ==>
      && HasRow(outbox, d.dependsOn.value) && outbox[d.dependsOn.value].message == message
      && outbox[d.dependsOn.value].chat == d.chat && outbox[d.dependsOn.value].generation == d.generation
  }

  predicate SendIdTaken(outbox: seq<OutboxRow>, d: Delivery) {
    d.sendId != "" && exists i :: 0 <= i < |outbox| && outbox[i].platform == d.platform && outbox[i].chat == d.chat
                                  && outbox[i].sendId == d.sendId
  }

  function NewRow(inbox: nat, d: Delivery, message: Option<nat>, now: int): OutboxRow
    requires d.chat >= 0 && (d.dependsOn.Some? ==> d.dependsOn.value >= 0)
  {
    var dep: Option<nat> := if d.dependsOn.Some? then Some(d.dependsOn.value) else None;
    OutboxRow(inbox, d.chat, message, d.operationKey, d.platform, d.kind, dep, d.generation, d.(message := message),
              d.sendId, Pending, now, None, None, None)
  }

  /** The row exists already with exactly this intent. */
  predicate SameIntent(db: Db, d: Delivery, message: Option<nat>) {
    var known := FindOperation(db.outbox, d.operationKey);
    known.Some? && db.outbox[known.value].payload == d.(message := message)
  }

  function InsertDelivery(o: Options, db: Db, inbox: nat, d: Delivery, message: Option<nat>, now: int): Result<Db> {
    if !IntentFields(d, message) then Err(Invalid)
    else if !TargetGeneration(db.parts, d, message) then Err(Conflict)
    else if !HasRow(db.chats, d.chat) then Err(Storage)
    else if db.chats[d.chat].generation != d.generation
            || db.chats[d.chat].state != (if d.kind.TopicCreate? then Discovered else Active)
            || !DependencyMatches(db.outbox, d, message) then Err(Conflict)
    else if o.deliveryBytes(d.(message := message)) > MAX_EVENT_BYTES then Err(Invalid)
    else
      var known := FindOperation(db.outbox, d.operationKey);
      if known.Some? then if SameIntent(db, d, message) then Ok(db) else Err(Conflict)
      else if Total(OutboxCounts(db.outbox)) >= o.maxOutboxCount
              || o.deliveryBytes(d.(message := message)) > o.maxOutboxBytes - Total(OutboxBytes(o, db.outbox))
      then Err(Saturated)
      else if SendIdTaken(db.outbox, d) then Err(Conflict)
      else Ok(db.(outbox := db.outbox + [NewRow(inbox, d, message, now)]))
  }

  function InsertAll(o: Options, db: Db, inbox: nat, ds: seq<Delivery>, message: Option<nat>, chat: nat, now: int)
    : Result<Db>
  {
    if ds == [] then Ok(db)
    else
      var before :- InsertAll(o, db, inbox, ds[..|ds| - 1], message, chat, now);
      var d := ds[|ds| - 1];
      if d.chat != chat || (d.message.Some? && d.message != message) then Err(Conflict)
      else InsertDelivery(o, before, inbox, d, message, now)
  }

  // ----- timers

  /** `message` is None where the source has message id 0. */
  datatype TimerSpec = TimerSpec(message: Option<int>, kind: TimerKind, version: SourceVersion, deadline: int)

  datatype Scheduled = Scheduled(db: Db, id: nat)

  /** A timer may be scheduled only for the current version of a message that is neither deleted nor kept. */
  predicate Schedulable(m: Message, kind: TimerKind, version: SourceVersion) {
    m.version == version && !m.tombstone && !(kind.Expire? && m.kept)
  }

  function ScheduleTimer(db: Db, spec: TimerSpec): Result<Scheduled> {
    if spec.message.None? || spec.message.value < 0 || !spec.version.Valid() || spec.deadline == ZERO_TIME
    then Err(Invalid)
    else
      var m := spec.message.value;
      var known := FindTimer(db.timers, m, spec.kind, spec.version);
      if known.Some? then
        if db.timers[known.value].deadline != spec.deadline then Err(Conflict) else Ok(Scheduled(db, known.value))
      else if !HasRow(db.messages, m) then Err(Storage)
      else if !Schedulable(db.messages[m], spec.kind, spec.version) then Err(Conflict)
      else
        var t := Timer(m, spec.kind, spec.version, spec.deadline, TimerPending, None);
        Ok(Scheduled(db.(timers := db.timers + [t]), |db.timers|))
  }

  function ScheduleAll(db: Db, specs: seq<TimerSpec>, message: Option<nat>): Result<Db> {
    if specs == [] then Ok(db)
    else
      var before :- ScheduleAll(db, specs[..|specs| - 1], message);
      var spec := specs[|specs| - 1];
      if message.None? || (spec.message.Some? && spec.message != message) then Err(Conflict)
      else
        var s :- ScheduleTimer(before, spec.(message := message));
        Ok(s.db)
  }

  // ----- the source message

  function MarkDeleted(parts: seq<Part>, message: nat): (s: seq<Part>)
    ensures |s| == |parts|
    ensures forall i :: 0 <= i < |s| ==>
              s[i] == if parts[i].message == message then parts[i].(deleted := true, sourceDeleted := true) else parts[i]
  {
    seq(|parts|, i requires 0 <= i < |parts| =>
      if parts[i].message == message then parts[i].(deleted := true, sourceDeleted := true) else parts[i])
  }

  /** Deleting a message takes its parts, their source states and its unsent additive work with it. */
  function Entomb(db: Db, m: nat): Db
    requires m < |db.messages|
  {
    db.(messages := db.messages[m := db.messages[m].(tombstone := true)],
        parts := MarkDeleted(db.parts, m),
        outbox := Supersede(db.outbox, m, false))
  }

  function Revise(db: Db, p: nat, version: SourceVersion, text: Option<TextContent>): Db
    requires p < |db.parts| && db.parts[p].message < |db.messages|
  {
    var m := db.parts[p].message;
    db.(messages := db.messages[m := db.messages[m].(version := version, text := text)],
        parts := db.parts[p := db.parts[p].(version := version)])
  }

  /** A revision is stale against a version of its own kind when not greater, and against another kind by positive order. */
  function Stale(version: SourceVersion, against: SourceVersion): Result<bool> {
    if version.kind == against.kind then
      var order :- version.Compare(against);
      Ok(order <= 0)
    else Ok(version.order > 0 && against.order > 0 && version.order <= against.order)
  }

  datatype Applied = Applied(db: Db, message: Option<nat>, chat: nat, suppress: bool)

  /** The chat a new message belongs to: that of its first delivery, or the only chat with the event's native id. */
  function SourceChat(db: Db, e: Event, ds: seq<Delivery>): Result<nat> {
    if ds != [] then
      if !HasRow(db.chats, ds[0].chat) then Err(Storage)
      else if NativeChat(db.chats[ds[0].chat], e.source) != e.chat then Err(Conflict)
      else Ok(ds[0].chat)
    else
      var matches := (c: Chat) => NativeChat(c, e.source) == e.chat;
      var first := FirstIndex(db.chats, matches);
      if first.None? || FirstIndex(db.chats, matches, first.value + 1).Some? then Err(Conflict) else Ok(first.value)
  }

  function SourceText(e: Event): Option<TextContent> {
    if e.kind.MessageRevoke? then None else e.text
  }

  function CreateSource(db: Db, e: Event, chat: nat, now: int): Result<Applied>
    requires e.target.Some? && chat < |db.chats|
  {
    var key, deleted := RefKey(e.target.value), e.kind.MessageRevoke?;
    if exists m :: 0 <= m < |db.messages| && db.messages[m].logicalKey == key then Err(Conflict)
    else
      var m := Message(chat, e.source, key.author, key, now, deleted, e.version, SourceText(e), false);
      var p := Part(|db.messages|, key, 0, Primary, false, {CanReact}, db.chats[chat].generation, deleted, false,
                    e.version, deleted);
      Ok(Applied(db.(messages := db.messages + [m], parts := db.parts + [p]), Some(|db.messages|), chat, false))
  }

  function ApplyRevision(db: Db, e: Event, p: nat): Result<Applied>
    requires p < |db.parts| && db.parts[p].message < |db.messages|
  {
    var m := db.parts[p].message;
    var stale :- Stale(e.version, db.parts[p].version);
    if stale then Ok(Applied(db, Some(m), db.messages[m].chat, true))
    else
      var late :- Stale(e.version, db.messages[m].version);
      if late then Ok(Applied(db, Some(m), db.messages[m].chat, true))
      else
        var revised := Revise(db, p, e.version, e.text);
        var superseded :=
          if e.kind.MessageEdit? then revised.(outbox := Supersede(db.outbox, m, true)) else revised;
        Ok(Applied(superseded, Some(m), db.messages[m].chat, false))
  }

  function ApplySource(db: Db, e: Event, ds: seq<Delivery>, now: int): Result<Applied>
    requires e.target.Some?
  {
    var known := FindPart(db.parts, RefKey(e.target.value));
    if known.None? then
      if !e.kind.MessageCreate? && !e.kind.MessageRevoke? then Err(NoWork)
      else
        var chat :- SourceChat(db, e, ds);
        CreateSource(db, e, chat, now)
    else
      var m := db.parts[known.value].message;
      if m >= |db.messages| then Err(Storage)
      else if db.messages[m].tombstone && !e.kind.MessageRevoke? then
        Ok(Applied(db, Some(m), db.messages[m].chat, true))
      else if e.kind.ReactionSet? then Ok(Applied(db, Some(m), db.messages[m].chat, false))
      else if e.kind.MessageRevoke? then
        Ok(Applied(Entomb(Revise(db, known.value, e.version, None), m), Some(m), db.messages[m].chat, false))
      else if e.kind.MessageCreate? || e.kind.MessageEdit? then ApplyRevision(db, e, known.value)
      else Err(Invalid)
  }

  // ----- chat events

  function RoutedOperation(e: Event): Result<Kind> {
    if e.kind.ChatTitle? then Ok(TopicRename)
    else if e.kind.ChatDiscovered? && e.source == WhatsApp then Ok(TopicCreate)
    else Err(Invalid)
  }

  function RoutedChat(chats: seq<Chat>, e: Event): (r: Option<nat>)
    ensures r.Some? ==> r.value < |chats|
  {
    if e.source == WhatsApp then FindChat(chats, e.chat)
    else FirstIndex(chats, (c: Chat) => Decimal(c.tgChat) == e.chat && c.topic == Some(e.thread))
  }

  function CheckRouted(ds: seq<Delivery>, chat: nat, operation: Kind): Result<()> {
    if ds == [] then Ok(())
    else if ds[0].chat != chat then Err(Conflict)
    else if ds[0].kind != operation || ds[0].platform != Telegram || ds[0].message.Some? || ds[0].target.Some?
    then Err(Invalid)
    else CheckRouted(ds[1..], chat, operation)
  }

  function RouteChatEvent(chats: seq<Chat>, e: Event, ds: seq<Delivery>): Result<nat> {
    if e.target.Some? || ds == [] then Err(Invalid)
    else
      var operation :- RoutedOperation(e);
      if e.source == Telegram && e.thread <= 0 then Err(Invalid)
      else
        var chat := RoutedChat(chats, e);
        if chat.None? then Err(Conflict)
        else
          var _ :- CheckRouted(ds, chat.value, operation);
          Ok(chat.value)
  }

  // ----- the whole plan

  function CheckIntents(e: Event, ds: seq<Delivery>): Result<()> {
    if ds == [] then Ok(())
    else if ds[0].version != e.version then Err(Conflict)
    else if e.target.Some? && ds[0].kind != e.kind then Err(Invalid)
    else CheckIntents(e, ds[1..])
  }

  function ApplyEvent(db: Db, e: Event, ds: seq<Delivery>, now: int): Result<Applied> {
    if e.target.Some? then ApplySource(db, e, ds, now)
    else
      var chat :- RouteChatEvent(db.chats, e, ds);
      Ok(Applied(db, None, chat, false))
  }

  function PlanWork(o: Options, a: Applied, inbox: nat, ds: seq<Delivery>, timers: seq<TimerSpec>, now: int): Result<Db> {
    if a.suppress then Ok(a.db)
    else
      var inserted :- InsertAll(o, a.db, inbox, ds, a.message, a.chat, now);
      ScheduleAll(inserted, timers, a.message)
  }

  function Admissible(db: Db, e: Event, inbox: int, token: nat, ds: seq<Delivery>, now: int, fenced: int): Result<()> {
    if inbox < 0 || now == ZERO_TIME || !e.Valid() then Err(Invalid)
    else if !LiveInbox(db, inbox, token, fenced) then Err(LeaseLost)
    else if e != db.inbox[inbox].payload then Err(Conflict)
    else if e.target.Some? && (e.kind.MessageCreate? || e.kind.MessageEdit?) && e.actor != e.target.value.author
    then Err(Conflict)
    else CheckIntents(e, ds)
  }

  function PlanEvent(o: Options, db: Db, e: Event, inbox: int, token: nat, ds: seq<Delivery>, timers: seq<TimerSpec>,
                     now: int, clocks: Clocks): Result<Db>
  {
    var fenced := Fence(now, clocks.first);
    var _ :- Admissible(db, e, inbox, token, ds, now, fenced);
    var a :- ApplyEvent(db, e, ds, fenced);
    var planned :- PlanWork(o, a, inbox, ds, timers, fenced);
    if LiveInbox(planned, inbox, token, Fence(fenced, clocks.second))
    then Ok(ReleaseInbox(planned, inbox, InboxDone, planned.inbox[inbox].availableAt))
    else Err(LeaseLost)
  }
}
