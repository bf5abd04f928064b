/** Planning as rules on the columns of the tables: which events and intents are taken, and what becomes of each. */
module PlanRules {
  import opened Prelude
  import opened Domain
  import opened Database
  import opened Planning
  import opened QuietTransactions
  import opened Keys
  import opened Effects
  import opened Revisions
  import SendRules

  // ----- the call

  /** The event is the leased one, planned by the holder of the lease, and the intents are about exactly this event. */
  ghost predicate MayPlan(db: Db, c: PlanCall) {
    && c.now != ZERO_TIME && c.e.Valid() && 0 <= c.id < |db.inbox| && db.inbox[c.id].state == InboxLeased
    && SendRules.Held(db.inbox[c.id].lease, c.token, c.now, c.clocks.first, c.clocks.second)
    && db.inbox[c.id].payload == c.e
    && (c.e.target.Some? && (c.e.kind == MessageCreate || c.e.kind == MessageEdit) ==> c.e.actor == c.e.target.value.author)
    && forall d :: d in c.ds ==> d.version == c.e.version && (c.e.target.Some? ==> d.kind == c.e.kind)
  }

  lemma {:induction false} IntentsAgree(e: Event, ds: seq<Delivery>)
    ensures CheckIntents(e, ds).Ok? <==>
              forall d :: d in ds ==> d.version == e.version && (e.target.Some? ==> d.kind == e.kind)
  {
    if ds != [] {
      IntentsAgree(e, ds[1..]);
      assert ds == [ds[0]] + ds[1..];
    }
  }

  /** The event applied and its work planned, before the inbox row is finished. */
  function Worked(o: Options, db: Db, c: PlanCall): Result<Db> {
    var fenced := Fence(c.now, c.clocks.first);
    var a :- ApplyEvent(db, c.e, c.ds, fenced);
    if c.id < 0 then Err(Invalid) else PlanWork(o, a, c.id, c.ds, c.timers, fenced)
  }

  lemma WorkedKeepsInbox(o: Options, db: Db, c: PlanCall)
    requires Worked(o, db, c).Ok?
    ensures Worked(o, db, c).value.inbox == db.inbox
  {
    var fenced := Fence(c.now, c.clocks.first);
    ApplyEventQuiet(db, c.e, c.ds, fenced);
    PlanWorkFrame(o, ApplyEvent(db, c.e, c.ds, fenced).value, c.id, c.ds, c.timers, fenced);
  }

  /** A plan commits exactly when the call may plan and its work can be done, and then the event is done. */
  lemma PlansExactlyWhen(o: Options, db: Db, c: PlanCall)
    ensures Plan(o, db, c).Ok? <==> MayPlan(db, c) && Worked(o, db, c).Ok?
    ensures Plan(o, db, c).Ok? ==>
              var row := db.inbox[c.id].(state := InboxDone, lease := None);
              Plan(o, db, c).value == Worked(o, db, c).value.(inbox := db.inbox[c.id := row])
  {
    IntentsAgree(c.e, c.ds);
    if Worked(o, db, c).Ok? {
      WorkedKeepsInbox(o, db, c);
    }
  }

  // ----- revisions

  datatype Verdict = Fresh | Old | Clash

  /**
   * A version against another one. Within a kind the epochs must agree and the greater order wins; the same order must be
   * the same version. Across kinds only positive orders count.
   */
  function Against(v: SourceVersion, w: SourceVersion): Verdict {
    if v.kind != w.kind then if 0 < v.order <= w.order then Old else Fresh
    else if v.epoch != w.epoch then Clash
    else if v.order > w.order then Fresh
    else if v.order < w.order || v == w then Old
    else Clash
  }

  lemma StaleIsOld(v: SourceVersion, w: SourceVersion)
    requires v.Valid() && w.Valid()
    ensures Stale(v, w) == match Against(v, w) case Fresh => Ok(false) case Old => Ok(true) case Clash => Err(Conflict)
  {
  }

  /** The event creates or edits, through its part `p`, a message that stands; the stored versions are well formed. */
  ghost predicate Revises(db: Db, e: Event, p: int) {
    && e.target.Some? && (e.kind == MessageCreate || e.kind == MessageEdit) && e.Valid() && 0 <= p < |db.parts|
    && db.parts[p].key == Key(e.target.value.platform, e.target.value.chat, e.target.value.author, e.target.value.id)
    && db.parts[p].version.Valid() && db.parts[p].message < |db.messages|
    && db.messages[db.parts[p].message].version.Valid() && !db.messages[db.parts[p].message].tombstone
  }

  lemma RevisionApplies(db: Db, c: PlanCall, p: int)
    requires UniqueParts(db.parts) && Revises(db, c.e, p)
    ensures AppliedBy(db, c) == ApplyRevision(db, c.e, p)
  {
    assert FindPart(db.parts, RefKey(c.e.target.value)) == Some(p);
  }

  /** The message and its part at the new version and text; an edit supersedes the unsent edits before it. */
  ghost predicate Revised(db: Db, e: Event, p: int, b: Db)
    requires 0 <= p < |db.parts| && db.parts[p].message < |db.messages|
  {
    var m := db.parts[p].message;
    && b == db.(messages := db.messages[m := db.messages[m].(version := e.version, text := e.text)],
                parts := db.parts[p := db.parts[p].(version := e.version)], outbox := b.outbox)
    && |b.outbox| == |db.outbox|
    && forall i :: 0 <= i < |b.outbox| ==>
         var r := db.outbox[i];
         b.outbox[i] == if e.kind == MessageEdit && r.message == Some(m) && r.operation == MessageEdit && r.startedAt == None
                           && (r.state == Pending || r.state == Leased)
                        then r.(state := Superseded, lease := None) else r
  }

  /**
   * What becomes of a revision: it fails if its version clashes with that of its part or its message, is suppressed if it
   * is old against either, and otherwise revises both.
   */
  lemma RevisionIsDecided(db: Db, c: PlanCall, p: int)
    requires UniqueParts(db.parts) && Revises(db, c.e, p)
    ensures var m, r := db.parts[p].message, AppliedBy(db, c);
      var part, message := Against(c.e.version, db.parts[p].version), Against(c.e.version, db.messages[m].version);
      if part == Clash || (part == Fresh && message == Clash) then r == Err(Conflict)
      else if part == Old || message == Old then r == Ok(Applied(db, Some(m), db.messages[m].chat, true))
      else r.Ok? && Revised(db, c.e, p, r.value.db) && r.value == Applied(r.value.db, Some(m), db.messages[m].chat, false)
  {
    RevisionApplies(db, c, p);
    StaleIsOld(c.e.version, db.parts[p].version);
    StaleIsOld(c.e.version, db.messages[db.parts[p].message].version);
  }

  predicate SameOrderOnly(v: SourceVersion, w: SourceVersion) {
    v.kind == w.kind && v.epoch == w.epoch && v.order == w.order && (v.tie != w.tie || v.digest != w.digest)
  }

  /** Two versions of equal order that are not the same are in conflict: the plan fails, and the event is not dropped as old. */
  lemma SameOrderConflicts(o: Options, db: Db, c: PlanCall, p: int)
    requires UniqueParts(db.parts) && Revises(db, c.e, p) && MayPlan(db, c)
    requires SameOrderOnly(c.e.version, db.parts[p].version)
             || (db.parts[p].version.kind == c.e.version.kind && db.parts[p].version.epoch == c.e.version.epoch
                 && db.parts[p].version.order < c.e.version.order
                 && SameOrderOnly(c.e.version, db.messages[db.parts[p].message].version))
    ensures Plan(o, db, c) == Err(Conflict)
  {
    RevisionIsDecided(db, c, p);
    IntentsAgree(c.e, c.ds);
  }

  // ----- other events of known messages

  /**
   * Of events about a known part, nothing but a revoke reaches a deleted message. While it stands, a reaction changes neither
   * message nor part, and an event that is no create, edit, reaction or revoke is refused.
   */
  lemma DeletedOrReacted(db: Db, c: PlanCall, p: nat)
    requires UniqueParts(db.parts) && p < |db.parts| && c.e.target.Some? && RefKey(c.e.target.value) == db.parts[p].key
    requires db.parts[p].message < |db.messages| && c.e.kind != MessageRevoke
    ensures var m := db.parts[p].message;
      && (db.messages[m].tombstone ==> AppliedBy(db, c) == Ok(Applied(db, Some(m), db.messages[m].chat, true)))
      && (!db.messages[m].tombstone && c.e.kind == ReactionSet ==>
            AppliedBy(db, c) == Ok(Applied(db, Some(m), db.messages[m].chat, false)))
      && (!db.messages[m].tombstone && c.e.kind != ReactionSet && c.e.kind != MessageCreate && c.e.kind != MessageEdit ==>
            AppliedBy(db, c) == Err(Invalid))
  {
    assert FindPart(db.parts, RefKey(c.e.target.value)) == Some(p);
  }

  /** A revoke supersedes exactly the unsent creates, edits and reactions of its message, whatever its version. */
  lemma RevokeSupersedes(db: Db, c: PlanCall, p: nat, i: nat)
    requires UniqueParts(db.parts) && p < |db.parts| && c.e.target.Some? && RefKey(c.e.target.value) == db.parts[p].key
    requires db.parts[p].message < |db.messages| && c.e.kind == MessageRevoke && i < |db.outbox|
    ensures AppliedBy(db, c).Ok? && !AppliedBy(db, c).value.suppress
    ensures var r, m, b := db.outbox[i], db.parts[p].message, AppliedBy(db, c).value.db.outbox;
      && |b| == |db.outbox|
      && b[i] == if r.message == Some(m) && r.startedAt == None && (r.state == Pending || r.state == Leased)
                    && (r.operation == MessageCreate || r.operation == MessageEdit || r.operation == ReactionSet)
                 then r.(state := Superseded, lease := None) else r
  {
    assert FindPart(db.parts, RefKey(c.e.target.value)) == Some(p);
  }

  // ----- new messages

  /** The chat's own id on the platform. */
  predicate IsNative(c: Chat, p: Platform, id: string) {
    if p == WhatsApp then c.jid == id else Decimal(c.tgChat) == id
  }

  /** The event is of this chat: that of its first intent, or without intents the only one with its native id. */
  ghost predicate ComesFrom(chats: seq<Chat>, e: Event, ds: seq<Delivery>, i: int) {
    && 0 <= i < |chats| && IsNative(chats[i], e.source, e.chat)
    && if ds != [] then ds[0].chat == i
       else forall j :: 0 <= j < |chats| && IsNative(chats[j], e.source, e.chat) ==> j == i
  }

  lemma SourceChatIsNative(db: Db, e: Event, ds: seq<Delivery>, i: int)
    ensures SourceChat(db, e, ds).Ok? && SourceChat(db, e, ds).value == i <==> ComesFrom(db.chats, e, ds, i)
  {
    forall j | 0 <= j < |db.chats|
      ensures NativeChat(db.chats[j], e.source) == e.chat <==> IsNative(db.chats[j], e.source, e.chat)
    {
    }
  }

  /** The message a first event brings, with the event's target as its one part, which is not the bridge's own. */
  function Brought(db: Db, e: Event, chat: nat, now: int): Db
    requires e.target.Some? && chat < |db.chats|
  {
    var t, gone := e.target.value, e.kind == MessageRevoke;
    var key := Key(t.platform, t.chat, t.author, t.id);
    var m := Message(chat, e.source, t.author, key, now, gone, e.version, if gone then None else e.text, false);
    var p := Part(|db.messages|, key, 0, Primary, false, {CanReact}, db.chats[chat].generation, gone, false, e.version, gone);
    db.(messages := db.messages + [m], parts := db.parts + [p])
  }

  /**
   * An event about an unknown target is taken exactly if it is a create or a revoke of a message never seen, in the chat it
   * comes from; any other event of an unknown target is no work.
   */
  lemma FirstEventIsTakenWhen(db: Db, c: PlanCall)
    requires c.e.target.Some? && forall p :: 0 <= p < |db.parts| ==> db.parts[p].key != RefKey(c.e.target.value)
    ensures c.e.kind != MessageCreate && c.e.kind != MessageRevoke ==> AppliedBy(db, c) == Err(NoWork)
    ensures AppliedBy(db, c).Ok? <==>
              && (c.e.kind == MessageCreate || c.e.kind == MessageRevoke)
              && (exists i :: ComesFrom(db.chats, c.e, c.ds, i))
              && forall m :: 0 <= m < |db.messages| ==> db.messages[m].logicalKey != RefKey(c.e.target.value)
    ensures AppliedBy(db, c).Ok? ==>
              exists i :: ComesFrom(db.chats, c.e, c.ds, i)
                          && AppliedBy(db, c).value == Applied(Brought(db, c.e, i, Fence(c.now, c.clocks.first)),
                                                               Some(|db.messages|), i, false)
  {
    var chat := SourceChat(db, c.e, c.ds);
    if chat.Ok? {
      SourceChatIsNative(db, c.e, c.ds, chat.value);
      assert ComesFrom(db.chats, c.e, c.ds, chat.value);
    }
    forall i | ComesFrom(db.chats, c.e, c.ds, i) ensures chat.Ok? {
      SourceChatIsNative(db, c.e, c.ds, i);
    }
  }

  // ----- chat events

  /** A title renames the topic of its chat; a chat discovered on WhatsApp gets one created. */
  ghost predicate Asks(chats: seq<Chat>, e: Event, i: int, operation: Kind) {
    && 0 <= i < |chats|
    && ((e.kind == ChatTitle && operation == TopicRename)
        || (e.kind == ChatDiscovered && e.source == WhatsApp && operation == TopicCreate))
    && if e.source == WhatsApp then chats[i].jid == e.chat
       else e.thread > 0 && Decimal(chats[i].tgChat) == e.chat && chats[i].topic == Some(e.thread)
  }

  lemma {:induction false} RoutedExactlyWhen(ds: seq<Delivery>, chat: nat, operation: Kind)
    ensures CheckRouted(ds, chat, operation).Ok? <==>
              forall d :: d in ds ==>
                d.chat == chat && d.kind == operation && d.platform == Telegram && d.message == None && d.target == None
  {
    if ds != [] {
      RoutedExactlyWhen(ds[1..], chat, operation);
      assert ds == [ds[0]] + ds[1..];
    }
  }

  lemma AskedChatIsRouted(chats: seq<Chat>, e: Event, i: nat, operation: Kind)
    requires UniqueChats(chats) && Asks(chats, e, i, operation)
    ensures RoutedOperation(e) == Ok(operation) && RoutedChat(chats, e) == Some(i)
  {
    var r := RoutedChat(chats, e).value;
    if e.source == Telegram {
      DecimalInjective(chats[r].tgChat, chats[i].tgChat);
    }
  }

  /** A chat event is taken exactly with intents that all do what it asks for in its chat. */
  lemma ChatEventIsTakenWhen(chats: seq<Chat>, e: Event, ds: seq<Delivery>, i: int)
    requires UniqueChats(chats)
    ensures RouteChatEvent(chats, e, ds).Ok? && RouteChatEvent(chats, e, ds).value == i <==>
              && e.target.None? && ds != [] && Asks(chats, e, i, ds[0].kind)
              && forall d :: d in ds ==>
                   d.chat == i && d.kind == ds[0].kind && d.platform == Telegram && d.message == None && d.target == None
  {
    if e.target.None? && ds != [] {
      if RoutedOperation(e).Ok? && RoutedChat(chats, e).Some? {
        RoutedExactlyWhen(ds, RoutedChat(chats, e).value, RoutedOperation(e).value);
      }
      if Asks(chats, e, i, ds[0].kind) {
        AskedChatIsRouted(chats, e, i, ds[0].kind);
      }
      assert ds[0] in ds;
    }
  }

  // ----- intents

  /** The rows that count against the caps, and what they weigh. */
  ghost predicate Weighs(o: Options, outbox: seq<OutboxRow>, counts: seq<nat>, bytes: seq<nat>) {
    && |counts| == |bytes| == |outbox|
    && forall i :: 0 <= i < |outbox| ==>
         if outbox[i].state == Succeeded || outbox[i].state == Dead || outbox[i].state == Superseded
         then counts[i] == bytes[i] == 0 else counts[i] == 1 && bytes[i] == o.deliveryBytes(outbox[i].payload)
  }

  lemma WeighsTotals(o: Options, outbox: seq<OutboxRow>, counts: seq<nat>, bytes: seq<nat>)
    requires Weighs(o, outbox, counts, bytes)
    ensures OutboxCounts(outbox) == counts && OutboxBytes(o, outbox) == bytes
  {
  }

  /** What every intent must have. */
  ghost predicate Complete(d: Delivery, message: Option<nat>) {
    && 0 < |d.operationKey| <= 512 && d.chat >= 0 && d.generation >= 0 && d.version.Valid() && |d.sendId| <= 256
    && (d.text.Some? ==> d.text.value.Valid())
    && (d.target.Some? ==> d.target.value.Valid() && d.target.value.platform == d.platform)
    && match d.kind
       case MessageCreate => message.Some?
       case MessageEdit => message.Some? && d.target.Some?
       case MessageRevoke => message.Some? && d.target.Some?
       case ReactionSet => message.Some? && d.target.Some?
       case TopicCreate => true
       case TopicRename => true
       case _ => false
  }

  /** The intent fits the chat's present topic, its target's topic and the row it depends on. */
  ghost predicate Timely(db: Db, d: Delivery, message: Option<nat>) {
    && 0 <= d.chat < |db.chats| && db.chats[d.chat].generation == d.generation
    && db.chats[d.chat].state == (if d.kind == TopicCreate then Discovered else Active)
    && (d.target.Some? && d.platform == Telegram ==>
          forall p :: 0 <= p < |db.parts| && db.parts[p].key == RefKey(d.target.value) ==>
            Some(db.parts[p].message) == message ==> db.parts[p].generation == d.generation)
    && (d.dependsOn.Some? ==>
          && 0 <= d.dependsOn.value < |db.outbox| && db.outbox[d.dependsOn.value].message == message
          && db.outbox[d.dependsOn.value].chat == d.chat && db.outbox[d.dependsOn.value].generation == d.generation)
  }

  ghost predicate Uses(outbox: seq<OutboxRow>, i: int, operationKey: string) {
    0 <= i < |outbox| && outbox[i].operationKey == operationKey
  }

  /** The operation is already stored with this intent, or it is new, there is room, and its send id is unused in the chat. */
  ghost predicate Takeable(o: Options, outbox: seq<OutboxRow>, d: Delivery, counts: seq<nat>, bytes: seq<nat>) {
    if exists i :: Uses(outbox, i, d.operationKey)
    then exists i :: Uses(outbox, i, d.operationKey) && outbox[i].payload == d
    else
      && Total(counts) < o.maxOutboxCount && Total(bytes) + o.deliveryBytes(d) <= o.maxOutboxBytes
      && (d.sendId != "" ==> forall i :: 0 <= i < |outbox| ==>
            !(outbox[i].sendId == d.sendId && outbox[i].platform == d.platform && outbox[i].chat == d.chat))
  }

  lemma CompleteIsIntentFields(d: Delivery, message: Option<nat>)
    ensures IntentFields(d, message) <==>
              Complete(d, message) && (d.platform == WhatsApp ==> d.sendId != "" && 0 < |d.echoActor| <= 256)
  {
  }

  lemma TimelyIsChecked(db: Db, d: Delivery, message: Option<nat>)
    ensures Timely(db, d, message) <==>
              && HasRow(db.chats, d.chat) && db.chats[d.chat].generation == d.generation
              && db.chats[d.chat].state == (if d.kind.TopicCreate? then Discovered else Active)
              && TargetGeneration(db.parts, d, message) && DependencyMatches(db.outbox, d, message)
  {
  }

  /** An intent becomes a row exactly when it is complete, timely and can be taken. */
  lemma InsertsExactlyWhen(o: Options, db: Db, inbox: nat, d: Delivery, message: Option<nat>, now: int, counts: seq<nat>,
                           bytes: seq<nat>)
    requires UniqueOperations(db.outbox) && Weighs(o, db.outbox, counts, bytes)
    ensures var stored := d.(message := message);
      InsertDelivery(o, db, inbox, d, message, now).Ok? <==>
        && Complete(d, message) && (d.platform == WhatsApp ==> d.sendId != "" && 0 < |d.echoActor| <= 256)
        && Timely(db, d, message) && o.deliveryBytes(stored) <= 0x10_0000 && Takeable(o, db.outbox, stored, counts, bytes)
  {
    CompleteIsIntentFields(d, message);
    TimelyIsChecked(db, d, message);
    WeighsTotals(o, db.outbox, counts, bytes);
    var known := FindOperation(db.outbox, d.operationKey);
    forall i | Uses(db.outbox, i, d.operationKey) ensures known == Some(i) {
    }
    assert known.Some? ==> Uses(db.outbox, known.value, d.operationKey);
  }

  /** The new row waits from now on, holds the intent under its message, and is the only change. */
  lemma InsertedIsPending(o: Options, db: Db, inbox: nat, d: Delivery, message: Option<nat>, now: int)
    requires InsertDelivery(o, db, inbox, d, message, now).Ok? && d.chat >= 0 && (d.dependsOn.Some? ==> d.dependsOn.value >= 0)
    ensures var b := InsertDelivery(o, db, inbox, d, message, now).value;
      var dep: Option<nat> := if d.dependsOn.Some? then Some(d.dependsOn.value) else None;
      if exists i :: Uses(db.outbox, i, d.operationKey) then b == db
      else b == db.(outbox := db.outbox + [OutboxRow(inbox, d.chat, message, d.operationKey, d.platform, d.kind, dep,
                                                     d.generation, d.(message := message), d.sendId, Pending, now, None,
                                                     None, None)])
  {
    var known := FindOperation(db.outbox, d.operationKey);
    assert known.Some? ==> Uses(db.outbox, known.value, d.operationKey);
  }

  /** The rows added to `a` hold one of the intents each. */
  ghost predicate Asked(a: seq<OutboxRow>, b: seq<OutboxRow>, inbox: nat, ds: seq<Delivery>, message: Option<nat>) {
    a <= b && forall i :: |a| <= i < |b| ==>
      b[i].inbox == inbox && b[i].state == Pending && exists d :: d in ds && b[i].payload == d.(message := message)
  }

  lemma OneMoreAsked(a: seq<OutboxRow>, before: seq<OutboxRow>, b: seq<OutboxRow>, inbox: nat, ds: seq<Delivery>,
                     message: Option<nat>)
    requires ds != [] && Asked(a, before, inbox, ds[..|ds| - 1], message)
    requires Asked(before, b, inbox, [ds[|ds| - 1]], message)
    ensures Asked(a, b, inbox, ds, message)
  {
    forall i | |a| <= i < |b|
      ensures b[i].inbox == inbox && b[i].state == Pending && exists d :: d in ds && b[i].payload == d.(message := message)
    {
      if i < |before| {
        assert b[i] == before[i];
        var d :| d in ds[..|ds| - 1] && b[i].payload == d.(message := message);
        assert d in ds;
      } else {
        assert ds[|ds| - 1] in ds;
      }
    }
  }

  lemma InsertedIsAsked(o: Options, db: Db, inbox: nat, d: Delivery, message: Option<nat>, now: int)
    requires InsertDelivery(o, db, inbox, d, message, now).Ok?
    ensures Asked(db.outbox, InsertDelivery(o, db, inbox, d, message, now).value.outbox, inbox, [d], message)
  {
    assert d in [d];
  }

  /** All intents of a plan are of one chat and message. */
  lemma {:induction false} IntentsOfOne(o: Options, db: Db, inbox: nat, ds: seq<Delivery>, message: Option<nat>, chat: nat,
                                        now: int)
    requires InsertAll(o, db, inbox, ds, message, chat, now).Ok?
    ensures forall d :: d in ds ==> d.chat == chat && (d.message == None || d.message == message)
  {
    if ds != [] {
      var n := |ds| - 1;
      IntentsOfOne(o, db, inbox, ds[..n], message, chat, now);
      assert ds == ds[..n] + [ds[n]];
    }
  }

  /** Every row a plan adds holds one of its intents, and waits. */
  lemma {:induction false} OnlyAskedRows(o: Options, db: Db, inbox: nat, ds: seq<Delivery>, message: Option<nat>, chat: nat,
                                         now: int)
    requires InsertAll(o, db, inbox, ds, message, chat, now).Ok?
    ensures Asked(db.outbox, InsertAll(o, db, inbox, ds, message, chat, now).value.outbox, inbox, ds, message)
  {
    if ds != [] {
      var n := |ds| - 1;
      var before := InsertAll(o, db, inbox, ds[..n], message, chat, now).value;
      var b := InsertAll(o, db, inbox, ds, message, chat, now).value;
      OnlyAskedRows(o, db, inbox, ds[..n], message, chat, now);
      InsertedIsAsked(o, before, inbox, ds[n], message, now);
      OneMoreAsked(db.outbox, before.outbox, b.outbox, inbox, ds, message);
    }
  }

  /** All timers of a plan are of its message. */
  lemma {:induction false} TimersOfOne(db: Db, specs: seq<TimerSpec>, message: Option<nat>)
    requires ScheduleAll(db, specs, message).Ok?
    ensures forall t :: t in specs ==> message.Some? && (t.message == None || t.message == message)
  {
    if specs != [] {
      var n := |specs| - 1;
      TimersOfOne(db, specs[..n], message);
      assert specs == specs[..n] + [specs[n]];
    }
  }
}
