/**
 * The outbox protocol as rules on the columns of the tables: which row a claim takes, when a send may begin and what a
 * failure records. Each rule is stated apart from the transaction it is about and proved to be exactly what it does.
 */
module SendRules {
  import opened Prelude
  import opened Domain
  import opened Database
  import opened Planning
  import opened Deliveries

  // ----- claiming

  /** Every earlier row of its message, or without a message in its chat, is finished, and no later such row is in flight. */
  ghost predicate Unblocked(outbox: seq<OutboxRow>, i: nat)
    requires i < |outbox|
  {
    forall j :: 0 <= j < |outbox| && j != i
                && ((outbox[i].message.Some? && outbox[j].message == outbox[i].message)
                    || (outbox[j].chat == outbox[i].chat && (outbox[j].message.None? || outbox[i].message.None?))) ==>
      if j < i then outbox[j].state.Succeeded? || outbox[j].state.Dead? || outbox[j].state.Superseded?
      else !outbox[j].state.Leased? && !outbox[j].state.Sending? && !outbox[j].state.Uncertain?
  }

  /** The row may be handed out at time `t`. */
  ghost predicate Claimable(db: Db, i: int, t: int) {
    && 0 <= i < |db.outbox|
    && var r := db.outbox[i];
       && r.state == Pending && r.availableAt <= t
       && r.chat < |db.chats| && db.chats[r.chat].generation == r.generation
       && db.chats[r.chat].state == (if r.operation == TopicCreate then Discovered else Active)
       && (r.dependsOn.Some? ==>
             r.dependsOn.value < |db.outbox| && db.outbox[r.dependsOn.value].state == Succeeded)
       && Unblocked(db.outbox, i)
  }

  lemma EligibleIsClaimable(db: Db, i: nat, t: int)
    requires i < |db.outbox|
    ensures Eligible(db, i, t) <==> Claimable(db, i, t)
  {
    assert Unobstructed(db.outbox, i) <==> Unblocked(db.outbox, i);
  }

  /** A claim leases the least row that may be handed out and changes nothing else; without such a row there is no work. */
  lemma ClaimTakesLeast(db: Db, token: nat, now: int, ttl: int, clock: int)
    ensures var t, c := if clock > now then clock else now, ClaimDelivery(db, token, now, ttl, clock);
      if now == ZERO_TIME || ttl < 1 || ttl > 3600000 then c == Err(Invalid)
      else if c.Ok? then
        && Claimable(db, c.value.id, t) && (forall j :: 0 <= j < c.value.id ==> !Claimable(db, j, t))
        && var row := db.outbox[c.value.id].(state := Leased, lease := Some(Lease(token, t + ttl)));
           c.value.db == db.(outbox := db.outbox[c.value.id := row])
      else c == Err(NoWork) && forall j :: !Claimable(db, j, t)
  {
    var t := if clock > now then clock else now;
    forall j | 0 <= j < |db.outbox| ensures Eligible(db, j, t) <==> Claimable(db, j, t) {
      EligibleIsClaimable(db, j, t);
    }
  }

  // ----- beginning a send

  /** The caller holds the row's lease, and still will at each of these times. */
  ghost predicate Held(lease: Option<Lease>, token: nat, a: int, b: int, c: int) {
    lease.Some? && lease.value.token == token && lease.value.until > a && lease.value.until > b && lease.value.until > c
  }

  /** The stored intent says what the columns beside it say. */
  ghost predicate Agrees(r: OutboxRow) {
    && r.payload.chat == r.chat && r.payload.message == r.message && r.payload.generation == r.generation
    && r.payload.kind == r.operation && r.payload.platform == r.platform && r.payload.version.Valid()
  }

  /**
   * The version rule, by operation. The own create of the event may be overtaken by later versions of its kind and epoch,
   * its reaction by anything; an edit or revoke must be the effective version. A revoke that no event asked for needs a
   * completed expiry of that version.
   */
  ghost predicate VersionAllows(current: SourceVersion, d: Delivery, e: Event, expired: bool) {
    if d.version != e.version || d.kind != e.kind then d.kind == MessageRevoke && current == d.version && expired
    else if d.kind == MessageCreate then
      && current.Valid() && current.kind == d.version.kind && current.epoch == d.version.epoch
      && (current.order > d.version.order || current == d.version)
    else d.kind == ReactionSet || current == d.version
  }

  ghost predicate Expired(timers: seq<Timer>, m: nat, version: SourceVersion) {
    exists t :: 0 <= t < |timers| && timers[t].message == m && timers[t].kind == Expire && timers[t].version == version
                && timers[t].state == TimerDone
  }

  /** A row without message carries the event of its chat: a title for a rename, a discovery for a creation. */
  ghost predicate ChatIntent(db: Db, r: OutboxRow, e: Event)
    requires r.chat < |db.chats|
  {
    && e.target.None? && r.payload.version == e.version && r.platform == Telegram && r.payload.target.None?
    && r.operation == (if e.kind == ChatTitle then TopicRename else TopicCreate)
    && (e.kind == ChatTitle || (e.kind == ChatDiscovered && e.source == WhatsApp))
    && if e.source == WhatsApp then db.chats[r.chat].jid == e.chat
       else e.thread > 0 && Decimal(db.chats[r.chat].tgChat) == e.chat && db.chats[r.chat].topic == Some(e.thread)
  }

  /** The row's intent is still what its event or a completed expiry asks for. */
  ghost predicate IntentStands(db: Db, r: OutboxRow)
    requires r.chat < |db.chats|
  {
    && r.inbox < |db.inbox| && Agrees(r)
    && var e := db.inbox[r.inbox].payload;
       if r.message.None? then ChatIntent(db, r, e)
       else
         var m := r.message.value;
         && m < |db.messages| && db.messages[m].chat == r.chat
         && VersionAllows(db.messages[m].version, r.payload, e, Expired(db.timers, m, r.payload.version))
  }

  /** The part of this message that the target names stands and allows the operation. */
  ghost predicate TargetStands(parts: seq<Part>, d: Delivery) {
    d.target.Some? ==>
      exists p :: 0 <= p < |parts| && d.message == Some(parts[p].message)
                  && parts[p].key == Key(d.target.value.platform, d.target.value.chat, d.target.value.author, d.target.value.id)
                  && !parts[p].retired && (d.platform == Telegram ==> parts[p].generation == d.generation)
                  && (d.kind == MessageEdit ==>
                        !parts[p].deleted && (d.platform == WhatsApp ==> parts[p].owned && EditText in parts[p].caps))
                  && (d.kind == ReactionSet ==> !parts[p].deleted && CanReact in parts[p].caps)
                  && (d.kind == MessageRevoke ==> (if d.platform == Telegram then CanDelete else CanRevoke) in parts[p].caps)
  }

  /** The tuple a WhatsApp send reserves. */
  function EchoTuple(db: Db, r: OutboxRow): EchoKey
    requires r.chat < |db.chats|
  {
    EchoKey(WhatsApp, db.chats[r.chat].jid, r.payload.echoActor, r.payload.sendId, r.payload.kind)
  }

  /** All that a send needs to begin. */
  ghost predicate MayBegin(db: Db, id: int, token: nat, now: int, clocks: Clocks) {
    && 0 <= id < |db.outbox|
    && var r := db.outbox[id];
       && r.state == Leased && Held(r.lease, token, now, clocks.first, clocks.third)
       && r.chat < |db.chats| && db.chats[r.chat].generation == r.generation
       && db.chats[r.chat].state == (if r.operation == TopicCreate then Discovered else Active)
       && IntentStands(db, r) && TargetStands(db.parts, r.payload)
       && (r.message.Some? && (r.operation == MessageCreate || r.operation == MessageEdit || r.operation == ReactionSet) ==>
             !db.messages[r.message.value].tombstone)
       && (r.platform == WhatsApp ==> forall e :: 0 <= e < |db.echoes| ==> db.echoes[e].key != EchoTuple(db, r))
  }

  /** The unique indexes the rule relies on: native chats, topics and part identities. */
  ghost predicate Distinct(db: Db) {
    && (forall i, j :: 0 <= i < j < |db.chats| ==>
          && db.chats[i].jid != db.chats[j].jid
          && !(db.chats[i].tgChat == db.chats[j].tgChat && db.chats[i].topic.Some? && db.chats[i].topic == db.chats[j].topic))
    && (forall p, q :: 0 <= p < q < |db.parts| ==> db.parts[p].key != db.parts[q].key)
  }

  lemma RouteIsChatIntent(db: Db, r: OutboxRow, e: Event)
    requires Distinct(db) && r.chat < |db.chats| && r.message.None? && Agrees(r)
    ensures RouteChatEvent(db.chats, e, [r.payload]) == Ok(r.chat) && r.payload.version == e.version <==> ChatIntent(db, r, e)
  {
    forall c: Chat | c in db.chats && Decimal(c.tgChat) == e.chat && e.chat == Decimal(db.chats[r.chat].tgChat)
      ensures c.tgChat == db.chats[r.chat].tgChat
    {
      DecimalInjective(c.tgChat, db.chats[r.chat].tgChat);
    }
    assert CheckRouted([r.payload][1..], r.chat, r.operation).Ok?;
  }

  lemma StoredIsIntentStands(db: Db, id: nat)
    requires Distinct(db) && id < |db.outbox| && db.outbox[id].chat < |db.chats|
    ensures StoredIntent(db, id).Ok? <==> IntentStands(db, db.outbox[id])
  {
    var r := db.outbox[id];
    if r.inbox < |db.inbox| && Agrees(r) {
      if r.message.None? {
        RouteIsChatIntent(db, r, db.inbox[r.inbox].payload);
      } else if r.message.value < |db.messages| {
        assert ExpiryDone(db.timers, r.message.value, r.payload.version)
          <==> Expired(db.timers, r.message.value, r.payload.version);
      }
    }
  }

  lemma ReadyIsTargetStands(db: Db, d: Delivery)
    requires Distinct(db)
    ensures TargetReady(db, d) <==> TargetStands(db.parts, d)
  {
    if d.target.Some? {
      var p := FindTarget(db, d);
    }
  }

  /** A send begins if and only if the rule allows it. */
  lemma BeginsExactlyWhen(db: Db, id: int, token: nat, now: int, clocks: Clocks)
    requires Distinct(db)
    ensures BeginSend(db, id, token, now, clocks).Ok? <==> now != ZERO_TIME && MayBegin(db, id, token, now, clocks)
  {
    if 0 <= id < |db.outbox| && db.outbox[id].chat < |db.chats| {
      StoredIsIntentStands(db, id);
      ReadyIsTargetStands(db, db.outbox[id].payload);
    }
  }

  /**
   * A begun send changes one row, from leased to sending under the same lease, at the latest of the times given. A WhatsApp
   * send reserves its tuple, which was free before, and nothing else changes.
   */
  lemma BeginReservesOnce(db: Db, id: int, token: nat, now: int, clocks: Clocks)
    requires BeginSend(db, id, token, now, clocks).Ok?
    ensures HasRow(db.outbox, id) && db.outbox[id].chat < |db.chats| && db.outbox[id].state == Leased
    ensures var r, d := db.outbox[id], db.outbox[id].payload;
      var t := if clocks.first > now then clocks.first else now;
      var row := r.(state := Sending, startedAt := Some(if clocks.second > t then clocks.second else t));
      var target := if d.target.None? then None
                    else Some(Key(d.target.value.platform, d.target.value.chat, d.target.value.author, d.target.value.id));
      var echo := Echo(EchoTuple(db, r), target, d.version.digest, id);
      && (d.platform == WhatsApp ==> forall e :: 0 <= e < |db.echoes| ==> db.echoes[e].key != EchoTuple(db, r))
      && BeginSend(db, id, token, now, clocks).value
         == db.(outbox := db.outbox[id := row], echoes := if d.platform == WhatsApp then db.echoes + [echo] else db.echoes)
  {
  }

  // ----- recording a failure

  /** A failure is recorded if and only if the row is held and the decision is one the row allows. */
  lemma FailsExactlyWhen(db: Db, id: int, token: nat, d: Decision, now: int, clocks: Clocks)
    ensures FailDelivery(db, id, token, d, now, clocks).Ok? <==>
              && now != ZERO_TIME && 0 <= id < |db.outbox|
              && (db.outbox[id].state == Leased || db.outbox[id].state == Sending)
              && Held(db.outbox[id].lease, token, now, clocks.first, clocks.second)
              && !d.cause.OtherClass?
              && (d.state == Dead || d.state == Blocked || (d.state == Uncertain && d.cause == UncertainClass)
                  || (d.state == Pending && db.outbox[id].startedAt.None? && d.availableAt >= now
                      && (d.cause == Transient || d.cause == RateLimited)))
  {
  }

  /**
   * A recorded failure leaves the decided state, time and cause in its row and takes the lease away; every other column and
   * row stays. The row waits again only if it never began and the error passes, and doubt is recorded as doubt.
   */
  lemma FailureNeverResends(db: Db, id: int, token: nat, d: Decision, now: int, clocks: Clocks)
    requires FailDelivery(db, id, token, d, now, clocks).Ok?
    ensures HasRow(db.outbox, id)
    ensures var r, b := db.outbox[id], FailDelivery(db, id, token, d, now, clocks).value;
      && b == db.(outbox := db.outbox[id := b.outbox[id]])
      && b.outbox[id] == OutboxRow(r.inbox, r.chat, r.message, r.operationKey, r.platform, r.operation, r.dependsOn,
                                   r.generation, r.payload, r.sendId, d.state, d.availableAt, None, r.startedAt,
                                   Some(d.cause))
      && (b.outbox[id].state == Pending ==>
            r.startedAt == None && d.availableAt >= now && (d.cause == Transient || d.cause == RateLimited))
      && (b.outbox[id].state == Uncertain ==> d.cause == UncertainClass)
  {
  }
}
