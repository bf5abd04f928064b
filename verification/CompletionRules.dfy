/** Completions as rules on the columns of the tables: when a delivered send is recorded, and what each part becomes. */
module CompletionRules {
  import opened Prelude
  import opened Domain
  import opened Database
  import opened Deliveries
  import opened QuietTransactions
  import opened Keys
  import InboxRules
  import SendRules

  // ----- versions

  /** Versions of one kind and epoch, of which equal orders are the same version, or versions of different kinds. */
  predicate Comparable(v: SourceVersion, w: SourceVersion) {
    v.kind != w.kind || (v.epoch == w.epoch && (v.order == w.order ==> v == w))
  }

  lemma GreaterExactlyWhen(v: SourceVersion, w: SourceVersion)
    requires v.Valid() && w.Valid()
    ensures Greater(v, w).Ok? <==> Comparable(v, w)
    ensures Comparable(v, w) ==> Greater(v, w) == Ok(if v.order > w.order then v else w)
  {
  }

  /** A part is acknowledged exactly at comparable versions: it keeps the greater one, and a deletion of its source stays. */
  lemma AcknowledgesExactlyWhen(parts: seq<Part>, m: nat, key: Key, applied: SourceVersion, deleted: bool, p: int)
    requires UniqueParts(parts) && 0 <= p < |parts| && parts[p].key == key && applied.Valid() && parts[p].version.Valid()
    ensures var r := Acknowledge(parts, m, key, applied, deleted);
      if parts[p].message == m && Comparable(applied, parts[p].version)
      then r == Ok(parts[p := parts[p].(version := if applied.order > parts[p].version.order then applied
                                                   else parts[p].version,
                                        sourceDeleted := parts[p].sourceDeleted || deleted)])
      else r == Err(Conflict)
  {
    GreaterExactlyWhen(applied, parts[p].version);
    var found := FirstIndex(parts, (p: Part) => p.message == m && p.key == key);
    assert found.Some? ==> found.value == p;
    assert found.None? ==> parts[p].message != m;
  }

  // ----- one reported part

  /** The place in the message is free: its index, and on its platform the role of the one standing primary part. */
  ghost predicate PlaceFree(parts: seq<Part>, m: nat, r: DeliveredPart) {
    forall q :: 0 <= q < |parts| && parts[q].message == m && parts[q].key.platform == r.ref.platform ==>
      && parts[q].index != r.index
      && !(parts[q].role == Primary && !parts[q].retired && r.role == Primary && !r.retired)
  }

  /** A part reported for the first time joins the message in the topic generation of the intent, if its place is free. */
  lemma NewPartJoins(parts: seq<Part>, m: nat, d: Delivery, r: DeliveredPart, version: SourceVersion, tombstone: bool)
    requires forall q :: 0 <= q < |parts| ==> parts[q].key != RefKey(r.ref)
    ensures var gone := r.deleted || tombstone;
      LinkPart(parts, m, d, r, version, tombstone)
      == if PlaceFree(parts, m, r)
         then Ok(parts + [Part(m, Key(r.ref.platform, r.ref.chat, r.ref.author, r.ref.id), r.index, r.role, r.owned, r.caps,
                               d.generation, gone, r.retired, version, gone)])
         else Err(Conflict)
  {
    assert PlaceFree(parts, m, r) <==> !SlotTaken(parts, m, r);
  }

  /**
   * A part reported again must be the same part of the same message at a comparable version. It keeps the greater version,
   * and becomes deleted or retired if it is now reported so, never the other way.
   */
  lemma KnownPartIsConfirmed(parts: seq<Part>, m: nat, d: Delivery, r: DeliveredPart, version: SourceVersion, tombstone: bool,
                             p: int)
    requires UniqueParts(parts) && 0 <= p < |parts| && parts[p].key == RefKey(r.ref)
    requires version.Valid() && parts[p].version.Valid()
    ensures var row, gone := parts[p], r.deleted || tombstone;
      LinkPart(parts, m, d, r, version, tombstone)
      == if row.message == m && row.index == r.index && row.role == r.role && row.owned == r.owned && row.caps == r.caps
            && Comparable(version, row.version)
         then Ok(parts[p := row.(version := if version.order > row.version.order then version else row.version,
                                 deleted := row.deleted || gone, sourceDeleted := row.sourceDeleted || gone,
                                 retired := row.retired || r.retired)])
         else Err(Conflict)
  {
    assert FindPart(parts, RefKey(r.ref)) == Some(p);
    AcknowledgesExactlyWhen(parts, m, RefKey(r.ref), version, r.deleted || tombstone, p);
    var b := LinkPart(parts, m, d, r, version, tombstone);
    if b.Ok? {
      assert b.value == parts[p := b.value[p]];
    }
  }

  // ----- all reported parts

  /** The part is well formed and the bridge's own, on the platform of the intent and in its chat. */
  predicate BelongsTo(r: DeliveredPart, d: Delivery, chat: Chat) {
    && InboxRules.WellNamed(r.ref) && r.index >= 0 && UndefinedBit !in r.caps && !r.role.OtherRole?
    && r.owned && r.ref.platform == d.platform
    && r.ref.chat == (if d.platform == WhatsApp then chat.jid else Decimal(chat.tgChat))
  }

  lemma AcceptableExactlyWhen(r: DeliveredPart, d: Delivery, chat: Chat)
    ensures AcceptablePart(r, d, chat) <==> BelongsTo(r, d, chat)
  {
  }

  /** No part is recorded that is not the bridge's own in the chat of the intent. */
  lemma {:induction false} RecordedPartsBelong(parts: seq<Part>, m: nat, d: Delivery, chat: Chat, results: seq<DeliveredPart>,
                                               version: SourceVersion, tombstone: bool)
    requires LinkParts(parts, m, d, chat, results, version, tombstone).Ok?
    ensures forall r :: r in results ==> BelongsTo(r, d, chat)
  {
    if results != [] {
      var n := |results| - 1;
      RecordedPartsBelong(parts, m, d, chat, results[..n], version, tombstone);
      AcceptableExactlyWhen(results[n], d, chat);
      assert results == results[..n] + [results[n]];
    }
  }

  lemma LinkKeepsOthers(parts: seq<Part>, m: nat, d: Delivery, r: DeliveredPart, version: SourceVersion, tombstone: bool,
                        p: nat)
    requires LinkPart(parts, m, d, r, version, tombstone).Ok? && p < |parts| && parts[p].key != RefKey(r.ref)
    ensures p < |LinkPart(parts, m, d, r, version, tombstone).value|
    ensures LinkPart(parts, m, d, r, version, tombstone).value[p] == parts[p]
  {
  }

  lemma {:induction false} LinksKeepOthers(parts: seq<Part>, m: nat, d: Delivery, chat: Chat, results: seq<DeliveredPart>,
                                           version: SourceVersion, tombstone: bool, p: nat)
    requires LinkParts(parts, m, d, chat, results, version, tombstone).Ok? && p < |parts|
    requires forall r :: r in results ==> parts[p].key != RefKey(r.ref)
    ensures p < |LinkParts(parts, m, d, chat, results, version, tombstone).value|
    ensures LinkParts(parts, m, d, chat, results, version, tombstone).value[p] == parts[p]
  {
    if results != [] {
      var n := |results| - 1;
      assert results == results[..n] + [results[n]];
      LinksKeepOthers(parts, m, d, chat, results[..n], version, tombstone, p);
      LinkKeepsOthers(LinkParts(parts, m, d, chat, results[..n], version, tombstone).value, m, d, results[n], version,
                      tombstone, p);
    }
  }

  /** The part is what the completed edit or revoke acted on. */
  predicate IsTarget(p: Part, d: Delivery) {
    (d.kind == MessageEdit || d.kind == MessageRevoke) && d.target.Some? && p.key == RefKey(d.target.value)
  }

  lemma TargetFollows(parts: seq<Part>, m: nat, d: Delivery, version: SourceVersion, tombstone: bool, p: nat)
    requires UniqueParts(parts) && p < |parts| && version.Valid() && parts[p].version.Valid()
    requires AcknowledgeTarget(parts, m, d, version, tombstone).Ok?
    ensures var row, b := parts[p], AcknowledgeTarget(parts, m, d, version, tombstone).value;
      && |b| == |parts|
      && b[p] == if IsTarget(row, d)
                 then row.(version := if version.order > row.version.order then version else row.version,
                           sourceDeleted := row.sourceDeleted || d.kind == MessageRevoke || tombstone)
                 else row
  {
    if IsTarget(parts[p], d) {
      AcknowledgesExactlyWhen(parts, m, parts[p].key, version, d.kind == MessageRevoke || tombstone, p);
    }
  }

  /**
   * What a completion does to a part it does not report: the target of an edit or revoke takes the greater version, and the
   * deletion of its source; a revoke deletes the parts of the message on its platform; nothing else changes.
   */
  lemma UnreportedPartsFollow(parts: seq<Part>, m: nat, d: Delivery, chat: Chat, c: Completion, tombstone: bool, p: nat)
    requires CompletedParts(parts, m, d, chat, c, tombstone).Ok? && p < |parts| && UniqueParts(parts)
    requires c.version.Valid() && parts[p].version.Valid()
    requires forall r :: r in c.parts ==> parts[p].key != RefKey(r.ref)
    ensures p < |CompletedParts(parts, m, d, chat, c, tombstone).value|
    ensures var row := parts[p];
      CompletedParts(parts, m, d, chat, c, tombstone).value[p]
      == row.(version := if IsTarget(row, d) && c.version.order > row.version.order then c.version else row.version,
              sourceDeleted := row.sourceDeleted || (IsTarget(row, d) && (d.kind == MessageRevoke || tombstone)),
              deleted := row.deleted || (d.kind == MessageRevoke && d.target.Some? && row.message == m
                                         && row.key.platform == d.target.value.platform))
  {
    var linked := LinkParts(parts, m, d, chat, c.parts, c.version, tombstone).value;
    LinksKeepOthers(parts, m, d, chat, c.parts, c.version, tombstone, p);
    LinkPartsKeepParts(parts, m, d, chat, c.parts, c.version, tombstone);
    TargetFollows(linked, m, d, c.version, tombstone, p);
  }

  // ----- echoes

  /** A completed send reserves one more echo of its own, unless it has it, and never takes that of another row. */
  lemma EchoIsReservedOnce(db: Db, echoes: seq<Echo>, id: nat, eventId: string)
    requires id < |db.outbox| && db.outbox[id].chat < |db.chats| && UniqueEchoes(echoes)
    ensures var row, c, r := db.outbox[id], db.chats[db.outbox[id].chat], ReserveEcho(db, echoes, id, eventId);
      var d := row.payload;
      var chat := if row.platform == WhatsApp then c.jid else Decimal(c.tgChat);
      var key := EchoKey(row.platform, chat, d.echoActor, eventId, d.kind);
      var target := if d.target.None? then None else Some(RefKey(d.target.value));
      if !(0 < |eventId| <= 256 && 0 < |d.echoActor| <= 256) then r == Err(Invalid)
      else if exists e :: 0 <= e < |echoes| && echoes[e].key == key && echoes[e].outbox == id then r == Ok(echoes)
      else if exists e :: 0 <= e < |echoes| && echoes[e].key == key then r == Err(Conflict)
      else r == Ok(echoes + [Echo(key, target, d.version.digest, id)])
  {
    var found := FindEcho(echoes, OwnEcho(db, db.outbox[id], eventId));
    assert found.Some? ==> echoes[found.value].key == OwnEcho(db, db.outbox[id], eventId);
  }

  // ----- the whole completion

  /** The row is held and sending for the chat's present topic, and the completion is of its version and not too large. */
  ghost predicate MayComplete(o: Options, db: Db, id: int, token: nat, c: Completion, now: int, clocks: Clocks) {
    && now != ZERO_TIME && c.version.Valid() && |c.parts| <= 1024 && |c.echoKeys| <= 1024
    && o.completionBytes(c) <= 0x10_0000
    && 0 <= id < |db.outbox| && db.outbox[id].state == Sending && db.outbox[id].chat < |db.chats|
    && SendRules.Held(db.outbox[id].lease, token, now, clocks.first, clocks.second)
    && var d := db.outbox[id].payload;
       && d.generation == db.chats[db.outbox[id].chat].generation && d.version == c.version
       && d.message.Some? && 0 <= d.message.value < |db.messages| && (d.kind == MessageCreate ==> c.parts != [])
  }

  /** A completion commits exactly when it may, its parts can be recorded and its echoes reserved; then its row succeeded. */
  lemma CompletesExactlyWhen(o: Options, db: Db, id: int, token: nat, c: Completion, now: int, clocks: Clocks)
    ensures CompleteDelivery(o, db, id, token, c, now, clocks).Ok? <==>
              && MayComplete(o, db, id, token, c, now, clocks)
              && ReserveEchoes(db, id, c.echoKeys).Ok?
              && var r := db.outbox[id];
                 var m := r.payload.message.value;
                 CompletedParts(db.parts, m, r.payload, db.chats[r.chat], c, db.messages[m].tombstone).Ok?
    ensures CompleteDelivery(o, db, id, token, c, now, clocks).Ok? ==>
              var r := db.outbox[id];
              var m := r.payload.message.value;
              CompleteDelivery(o, db, id, token, c, now, clocks).value
              == db.(parts := CompletedParts(db.parts, m, r.payload, db.chats[r.chat], c, db.messages[m].tombstone).value,
                     echoes := ReserveEchoes(db, id, c.echoKeys).value,
                     outbox := db.outbox[id := r.(state := Succeeded, lease := None)])
  {
    if 0 <= id < |db.outbox| && db.outbox[id].chat < |db.chats| && RecordResult(db, id, c).Ok? {
      RecordResultFrame(db, id, c);
    }
  }
}
