/** Exactly when the store accepts the revokes the coordinator builds for an expiry. */
module ExpiryCondition {
  import opened Prelude
  import opened Domain
  import opened Database
  import opened Planning
  import opened Timers
  import opened Queues
  import opened QuietTransactions
  import opened Evolution
  import opened Steps
  import opened Integrity
  import opened Keys
  import opened Deletion
  import opened TimerSafety
  import opened Effects
  import opened QueueBounds
  import opened Runs
  import opened Revisions
  import opened Arrival
  import opened BridgeStore
  import opened Expiries

  // ----- what reachable states have besides

  /** Only deleted messages have revokes. */
  predicate RevokesDeleted(db: Db) {
    forall i :: 0 <= i < |db.outbox| && db.outbox[i].operation.MessageRevoke? && db.outbox[i].message.Some? ==>
      Deleted(db.messages, db.outbox[i].message.value)
  }

  predicate HasRowOf(outbox: seq<OutboxRow>, m: nat) {
    exists i :: 0 <= i < |outbox| && outbox[i].message == Some(m)
  }

  /** A part of the bridge's own was sent for a row of its message. */
  predicate OwnedSent(db: Db) {
    forall p :: 0 <= p < |db.parts| && db.parts[p].owned ==> HasRowOf(db.outbox, db.parts[p].message)
  }

  lemma GrowthKeepsRowOf(a: Db, b: Db, m: nat)
    requires QueuesGrow(a, b) && HasRowOf(a.outbox, m)
    ensures HasRowOf(b.outbox, m)
  {
    var i :| 0 <= i < |a.outbox| && a.outbox[i].message == Some(m);
    assert OutboxRowGrows(a.outbox[i], b.outbox[i]);
  }

  lemma AppliedRevoke(db: Db, e: Event, ds: seq<Delivery>, now: int)
    requires ApplyEvent(db, e, ds, now).Ok?
    ensures var a := ApplyEvent(db, e, ds, now).value;
      && (a.message.Some? ==> e.target.Some?)
      && (a.message.Some? && e.kind.MessageRevoke? ==> Deleted(a.db.messages, a.message.value))
  {
  }

  lemma PlannedRevokesDelete(o: Options, db: Db, c: PlanCall)
    requires Plan(o, db, c).Ok?
    ensures var b := Plan(o, db, c).value;
      |db.outbox| <= |b.outbox| && forall i :: |db.outbox| <= i < |b.outbox| ==>
        b.outbox[i].operation.MessageRevoke? && b.outbox[i].message.Some? ==> Deleted(b.messages, b.outbox[i].message.value)
  {
    var fenced, a, b := Fence(c.now, c.clocks.first), AppliedBy(db, c).value, Plan(o, db, c).value;
    PlanKeepsSources(o, db, c);
    ApplyEventQuiet(db, c.e, c.ds, fenced);
    PlanWorkFrame(o, a, c.id, c.ds, c.timers, fenced);
    if !a.suppress {
      var inserted := InsertAll(o, a.db, c.id, c.ds, a.message, a.chat, fenced).value;
      InsertAllAppends(o, a.db, c.id, c.ds, a.message, a.chat, fenced);
      InsertedVersions(o, a.db, c.id, c.ds, a.message, a.chat, fenced);
      ScheduleAllAppends(inserted, c.timers, a.message);
      CheckedIntents(c.e, c.ds);
      AppliedRevoke(db, c.e, c.ds, fenced);
      forall i | |db.outbox| <= i < |b.outbox| && b.outbox[i].operation.MessageRevoke? && b.outbox[i].message.Some?
        ensures Deleted(b.messages, b.outbox[i].message.value)
      {
        assert b.outbox[i] == inserted.outbox[i];
      }
    }
  }

  lemma TimerRevokesDelete(o: Options, db: Db, t: Timer, ds: seq<Delivery>, now: int)
    requires HasRow(db.messages, t.message) && ApplyTimer(o, db, t, ds, now).Ok?
    ensures var b := ApplyTimer(o, db, t, ds, now).value;
      |db.outbox| <= |b.outbox| && forall i :: |db.outbox| <= i < |b.outbox| ==>
        b.outbox[i].message.Some? ==> Deleted(b.messages, b.outbox[i].message.value)
  {
    var inbox := if ds == [] then 0 else OriginInbox(db.outbox, t.message).value;
    InsertRevokesAppends(o, db, t, db.messages[t.message].chat, inbox, ds, now);
    InsertRevokesMessage(o, db, t, db.messages[t.message].chat, inbox, ds, now);
  }

  lemma NewRevokesDelete(o: Options, db: Db, token: nat, s: Step)
    requires Outcome(o, db, token, s).Ok?
    ensures var b := After(o, db, token, s);
      forall i :: |db.outbox| <= i < |b.outbox| && b.outbox[i].operation.MessageRevoke? && b.outbox[i].message.Some? ==>
        Deleted(b.messages, b.outbox[i].message.value)
  {
    match s
    case PlanStep(e, id, t, ds, timers, now, clocks) =>
      PlannedRevokesDelete(o, db, PlanCall(e, id, t, ds, timers, now, clocks));
    case CompleteTimerStep(id, t, ds, now, clocks) => TimerRevokesDelete(o, db, db.timers[id], ds, Fence(now, clocks.first));
    case _ => OutboxLength(o, db, token, s);
  }

  lemma GrowthKeepsRevokesDeleted(a: Db, b: Db)
    requires Linked(a) && RevokesDeleted(a) && Evolves(a, b)
    requires forall i :: |a.outbox| <= i < |b.outbox| && b.outbox[i].operation.MessageRevoke? && b.outbox[i].message.Some? ==>
               Deleted(b.messages, b.outbox[i].message.value)
    ensures RevokesDeleted(b)
  {
    forall i | 0 <= i < |a.outbox| && b.outbox[i].operation.MessageRevoke? && b.outbox[i].message.Some?
      ensures Deleted(b.messages, b.outbox[i].message.value)
    {
      assert OutboxRowGrows(a.outbox[i], b.outbox[i]) && RowLinked(a, i);
      assert MessageGrows(a.messages[a.outbox[i].message.value], b.messages[a.outbox[i].message.value]);
    }
  }

  lemma StepKeepsRevokesDeleted(o: Options, db: Db, token: nat, s: Step)
    requires LeaseShape(db) && Linked(db) && RevokesDeleted(db)
    ensures RevokesDeleted(After(o, db, token, s))
  {
    if Outcome(o, db, token, s).Ok? {
      StepKeepsShape(o, db, token, s);
      NewRevokesDelete(o, db, token, s);
      GrowthKeepsRevokesDeleted(db, After(o, db, token, s));
    }
  }

  lemma AppliedOwnsNothing(db: Db, e: Event, ds: seq<Delivery>, now: int)
    requires ApplyEvent(db, e, ds, now).Ok?
    ensures var b := ApplyEvent(db, e, ds, now).value.db.parts; forall p :: |db.parts| <= p < |b| ==> !b[p].owned
  {
  }

  /** A new part of the bridge's own comes from a completion, and belongs to the message of the completed row. */
  lemma NewOwnedIsSent(o: Options, db: Db, token: nat, s: Step)
    requires Linked(db) && Outcome(o, db, token, s).Ok?
    ensures var b := After(o, db, token, s);
      forall p :: |db.parts| <= p < |b.parts| && b.parts[p].owned ==> HasRowOf(db.outbox, b.parts[p].message)
  {
    match s
    case PlanStep(e, id, t, ds, timers, now, clocks) =>
      PlanKeepsSources(o, db, PlanCall(e, id, t, ds, timers, now, clocks));
      AppliedOwnsNothing(db, e, ds, Fence(now, clocks.first));
    case CompleteStep(id, t, c, now, clocks) =>
      CompletionRecords(o, db, id, t, c, now, clocks);
      assert RowLinked(db, id);
      assert db.outbox[id].message == db.outbox[id].payload.message;
    case _ => PartsLength(o, db, token, s);
  }

  lemma StepKeepsOwnedSent(o: Options, db: Db, token: nat, s: Step)
    requires LeaseShape(db) && Linked(db) && OwnedSent(db)
    ensures OwnedSent(After(o, db, token, s))
  {
    if Outcome(o, db, token, s).Ok? {
      var b := After(o, db, token, s);
      StepKeepsShape(o, db, token, s);
      NewOwnedIsSent(o, db, token, s);
      forall p | 0 <= p < |b.parts| && b.parts[p].owned ensures HasRowOf(b.outbox, b.parts[p].message) {
        assert p < |db.parts| ==> PartGrows(db.parts[p], b.parts[p]);
        GrowthKeepsRowOf(db, b, b.parts[p].message);
      }
    }
  }

  /** What an expiry relies on; every reachable state has it. */
  predicate ExpiryReady(db: Db) {
    Linked(db) && UniqueParts(db.parts) && RevokesDeleted(db) && OwnedSent(db)
  }

  lemma NextIsExpiryReady(o: Options, w: World, s: Step)
    requires Sound(o, w) && ExpiryReady(w.db)
    ensures RevokesDeleted(Apply(o, w, s).db) && OwnedSent(Apply(o, w, s).db)
  {
    StepKeepsRevokesDeleted(o, w.db, |w.issued|, s);
    StepKeepsOwnedSent(o, w.db, |w.issued|, s);
  }

  lemma {:induction false} ReachableIsExpiryReady(o: Options, steps: seq<Step>)
    requires ValidOptions(o)
    ensures ExpiryReady(Execute(o, START, steps).db)
  {
    ReachableIsSound(o, steps);
    if steps != [] {
      ReachableIsExpiryReady(o, steps[..|steps| - 1]);
      ReachableIsSound(o, steps[..|steps| - 1]);
      NextIsExpiryReady(o, Execute(o, START, steps[..|steps| - 1]), steps[|steps| - 1]);
    }
  }

  // ----- one revoke

  predicate KeyFree(outbox: seq<OutboxRow>, d: Delivery) {
    forall i :: 0 <= i < |outbox| ==> outbox[i].operationKey != d.operationKey
  }

  predicate ChatReady(db: Db, d: Delivery) {
    HasRow(db.chats, d.chat) && db.chats[d.chat].state.Active? && db.chats[d.chat].generation == d.generation
  }

  predicate WellFormed(o: Options, d: Delivery) {
    && d.message.Some? && d.message.value >= 0 && IntentFields(d, Some(d.message.value))
    && o.deliveryBytes(d) <= MAX_EVENT_BYTES
  }

  predicate HasOutboxRoom(o: Options, outbox: seq<OutboxRow>, count: nat, bytes: nat) {
    && Total(OutboxCounts(outbox)) + count <= o.maxOutboxCount
    && Total(OutboxBytes(o, outbox)) + bytes <= o.maxOutboxBytes
  }

  /** The intent is well formed, its topic is current, and nobody uses its operation key or send id. */
  predicate Placeable(o: Options, db: Db, d: Delivery) {
    WellFormed(o, d) && ChatReady(db, d) && KeyFree(db.outbox, d) && !SendIdTaken(db.outbox, d)
  }

  predicate FitsOne(o: Options, db: Db, d: Delivery) {
    Placeable(o, db, d) && HasOutboxRoom(o, db.outbox, 1, o.deliveryBytes(d))
  }

  lemma InsertsExactlyWhen(o: Options, db: Db, inbox: nat, d: Delivery, m: nat, now: int)
    requires d.message == Some(m) && d.dependsOn.None? && !d.kind.TopicCreate? && TargetGeneration(db.parts, d, Some(m))
    requires forall i :: 0 <= i < |db.outbox| ==> db.outbox[i].payload != d
    ensures InsertDelivery(o, db, inbox, d, Some(m), now).Ok? <==> FitsOne(o, db, d)
    ensures FitsOne(o, db, d) ==>
              d.chat >= 0
              && InsertDelivery(o, db, inbox, d, Some(m), now).value
                 == db.(outbox := db.outbox + [NewRow(inbox, d, Some(m), now)])
  {
    assert d.(message := Some(m)) == d;
  }

  // ----- all revokes of a list

  function Sizes(o: Options, ds: seq<Delivery>): (w: seq<nat>)
    ensures |w| == |ds| && forall i :: 0 <= i < |w| ==> w[i] == o.deliveryBytes(ds[i])
  {
    seq(|ds|, i requires 0 <= i < |ds| => o.deliveryBytes(ds[i]))
  }

  predicate SameSend(d: Delivery, e: Delivery) {
    d.sendId != "" && d.sendId == e.sendId && d.platform == e.platform && d.chat == e.chat
  }

  predicate Apart(d: Delivery, e: Delivery) {
    d.operationKey != e.operationKey && !SameSend(d, e)
  }

  /**
   * The store can take the whole list: the chat is active and in every revoke's generation, the revokes are well formed,
   * their operation keys and send ids are free and distinct, and there is room.
   */
  predicate RevokesFit(o: Options, db: Db, ds: seq<Delivery>) {
    && (forall i :: 0 <= i < |ds| ==> Placeable(o, db, ds[i]))
    && (forall i, j :: 0 <= i < j < |ds| ==> Apart(ds[i], ds[j]))
    && (ds != [] ==> HasOutboxRoom(o, db.outbox, |ds|, Total(Sizes(o, ds))))
  }

  predicate BuiltOne(db: Db, t: Timer, chat: nat, d: Delivery) {
    && RevokeIntent(t, chat, d) && OwnedTarget(db.parts, t.message, d) && d.dependsOn.None?
    && TargetGeneration(db.parts, d, Some(t.message))
    && forall i :: 0 <= i < |db.outbox| ==> db.outbox[i].payload != d
  }

  /** What holds of every list the coordinator builds. */
  predicate Built(db: Db, t: Timer, chat: nat, ds: seq<Delivery>) {
    && (forall i :: 0 <= i < |ds| ==> BuiltOne(db, t, chat, ds[i]))
    && (forall i, j :: 0 <= i < j < |ds| ==> TargetOf(ds[i]) != TargetOf(ds[j]))
  }

  predicate Rowable(ds: seq<Delivery>) {
    forall i :: 0 <= i < |ds| ==> ds[i].chat >= 0 && ds[i].dependsOn.None?
  }

  function RowsOf(inbox: nat, ds: seq<Delivery>, m: nat, now: int): (rows: seq<OutboxRow>)
    requires Rowable(ds)
    ensures |rows| == |ds| && forall i :: 0 <= i < |ds| ==> rows[i] == NewRow(inbox, ds[i], Some(m), now)
  {
    seq(|ds|, i requires 0 <= i < |ds| => NewRow(inbox, ds[i], Some(m), now))
  }

  /** The room left after rows were appended. */
  lemma RoomAfter(o: Options, outbox: seq<OutboxRow>, r: OutboxRow)
    requires OutboxUnresolved(r)
    ensures Total(OutboxCounts(outbox + [r])) == Total(OutboxCounts(outbox)) + 1
    ensures Total(OutboxBytes(o, outbox + [r])) == Total(OutboxBytes(o, outbox)) + o.deliveryBytes(r.payload)
  {
    assert OutboxCounts(outbox + [r]) == OutboxCounts(outbox) + [1];
    assert OutboxBytes(o, outbox + [r]) == OutboxBytes(o, outbox) + [o.deliveryBytes(r.payload)];
    TotalAppend(OutboxCounts(outbox), 1);
    TotalAppend(OutboxBytes(o, outbox), o.deliveryBytes(r.payload));
  }

  lemma SizesAppend(o: Options, ds: seq<Delivery>)
    requires ds != []
    ensures Total(Sizes(o, ds)) == Total(Sizes(o, ds[..|ds| - 1])) + o.deliveryBytes(ds[|ds| - 1])
  {
    assert Sizes(o, ds)[..|ds| - 1] == Sizes(o, ds[..|ds| - 1]);
  }

  /** The database after a list was taken: its rows are appended and the room is used up accordingly. */
  predicate Taken(o: Options, db: Db, inbox: nat, ds: seq<Delivery>, m: nat, now: int, b: Db) {
    && Rowable(ds) && b == db.(outbox := db.outbox + RowsOf(inbox, ds, m, now))
    && Total(OutboxCounts(b.outbox)) == Total(OutboxCounts(db.outbox)) + |ds|
    && Total(OutboxBytes(o, b.outbox)) == Total(OutboxBytes(o, db.outbox)) + Total(Sizes(o, ds))
  }

  /** After the earlier rows a revoke's key and send id are free when they were and when they differ from the earlier ones. */
  lemma LastIsFree(outbox: seq<OutboxRow>, inbox: nat, rest: seq<Delivery>, d: Delivery, m: nat, now: int)
    requires Rowable(rest)
    ensures var longer := outbox + RowsOf(inbox, rest, m, now);
      (KeyFree(longer, d) && !SendIdTaken(longer, d))
      <==> (KeyFree(outbox, d) && !SendIdTaken(outbox, d) && forall i :: 0 <= i < |rest| ==> Apart(rest[i], d))
  {
    var rows := RowsOf(inbox, rest, m, now);
    var longer := outbox + rows;
    assert forall i :: 0 <= i < |outbox| ==> longer[i] == outbox[i];
    assert forall i :: 0 <= i < |rest| ==> longer[|outbox| + i] == rows[i];
    if KeyFree(longer, d) && !SendIdTaken(longer, d) {
      forall i | 0 <= i < |rest| ensures Apart(rest[i], d) {
        assert longer[|outbox| + i].operationKey == rest[i].operationKey;
      }
      assert KeyFree(outbox, d);
    }
  }

  lemma PrefixFits(o: Options, db: Db, ds: seq<Delivery>)
    requires ds != [] && RevokesFit(o, db, ds)
    ensures RevokesFit(o, db, ds[..|ds| - 1])
  {
    SizesAppend(o, ds);
  }

  lemma LastFits(o: Options, db: Db, inbox: nat, ds: seq<Delivery>, m: nat, now: int, b: Db)
    requires ds != [] && Taken(o, db, inbox, ds[..|ds| - 1], m, now, b) && RevokesFit(o, db, ds)
    ensures FitsOne(o, b, ds[|ds| - 1])
  {
    var n := |ds| - 1;
    SizesAppend(o, ds);
    LastIsFree(db.outbox, inbox, ds[..n], ds[n], m, now);
    assert Placeable(o, db, ds[n]) && forall i :: 0 <= i < n ==> Apart(ds[i], ds[n]);
  }

  lemma OneMorePlaceable(o: Options, db: Db, inbox: nat, ds: seq<Delivery>, m: nat, now: int, b: Db)
    requires ds != [] && Taken(o, db, inbox, ds[..|ds| - 1], m, now, b)
    requires RevokesFit(o, db, ds[..|ds| - 1]) && Placeable(o, b, ds[|ds| - 1])
    ensures forall i :: 0 <= i < |ds| ==> Placeable(o, db, ds[i])
    ensures forall i, j :: 0 <= i < j < |ds| ==> Apart(ds[i], ds[j])
  {
    var n := |ds| - 1;
    var rest, d := ds[..n], ds[n];
    LastIsFree(db.outbox, inbox, rest, d, m, now);
    forall i | 0 <= i < |ds| ensures Placeable(o, db, ds[i]) {
      assert i < n ==> Placeable(o, db, rest[i]);
    }
    forall i, j | 0 <= i < j < |ds| ensures Apart(ds[i], ds[j]) {
      assert if j < n then Apart(rest[i], rest[j]) else Apart(rest[i], d);
    }
  }

  lemma OneMoreFits(o: Options, db: Db, inbox: nat, ds: seq<Delivery>, m: nat, now: int, b: Db)
    requires ds != [] && Taken(o, db, inbox, ds[..|ds| - 1], m, now, b)
    requires RevokesFit(o, db, ds[..|ds| - 1]) && FitsOne(o, b, ds[|ds| - 1])
    ensures RevokesFit(o, db, ds)
  {
    SizesAppend(o, ds);
    OneMorePlaceable(o, db, inbox, ds, m, now, b);
  }

  /** The rows already taken carry other revokes than the next one. */
  lemma NextIsNew(o: Options, db: Db, t: Timer, chat: nat, inbox: nat, ds: seq<Delivery>, now: int, b: Db)
    requires ds != [] && Built(db, t, chat, ds) && Taken(o, db, inbox, ds[..|ds| - 1], t.message, now, b)
    ensures forall i :: 0 <= i < |b.outbox| ==> b.outbox[i].payload != ds[|ds| - 1]
  {
    var n := |ds| - 1;
    assert BuiltOne(db, t, chat, ds[n]);
    forall i | |db.outbox| <= i < |b.outbox| ensures b.outbox[i].payload != ds[n] {
      var k := i - |db.outbox|;
      assert BuiltOne(db, t, chat, ds[k]) && ds[..n][k] == ds[k];
      assert b.outbox[i] == NewRow(inbox, ds[k], Some(t.message), now);
      assert ds[k].(message := Some(t.message)) == ds[k];
      assert TargetOf(ds[k]) != TargetOf(ds[n]);
    }
  }

  lemma RowsNext(inbox: nat, ds: seq<Delivery>, m: nat, now: int)
    requires ds != [] && Rowable(ds)
    ensures RowsOf(inbox, ds, m, now)
            == RowsOf(inbox, ds[..|ds| - 1], m, now) + [NewRow(inbox, ds[|ds| - 1], Some(m), now)]
  {
  }

  lemma RowableNext(ds: seq<Delivery>)
    requires ds != [] && Rowable(ds[..|ds| - 1]) && ds[|ds| - 1].chat >= 0 && ds[|ds| - 1].dependsOn.None?
    ensures Rowable(ds)
  {
    assert ds == ds[..|ds| - 1] + [ds[|ds| - 1]];
  }

  lemma TakenRoom(o: Options, db: Db, inbox: nat, ds: seq<Delivery>, m: nat, now: int, b: Db)
    requires ds != [] && Taken(o, db, inbox, ds[..|ds| - 1], m, now, b)
    requires var d := ds[|ds| - 1]; d.chat >= 0 && d.dependsOn.None? && d.message == Some(m)
    ensures var longer := b.outbox + [NewRow(inbox, ds[|ds| - 1], Some(m), now)];
      && Total(OutboxCounts(longer)) == Total(OutboxCounts(db.outbox)) + |ds|
      && Total(OutboxBytes(o, longer)) == Total(OutboxBytes(o, db.outbox)) + Total(Sizes(o, ds))
  {
    var d := ds[|ds| - 1];
    assert d.(message := Some(m)) == d;
    SizesAppend(o, ds);
    RoomAfter(o, b.outbox, NewRow(inbox, d, Some(m), now));
  }

  lemma TakenNext(o: Options, db: Db, inbox: nat, ds: seq<Delivery>, m: nat, now: int, b: Db)
    requires ds != [] && Taken(o, db, inbox, ds[..|ds| - 1], m, now, b)
    requires var d := ds[|ds| - 1]; d.chat >= 0 && d.dependsOn.None? && d.message == Some(m)
    ensures Taken(o, db, inbox, ds, m, now, b.(outbox := b.outbox + [NewRow(inbox, ds[|ds| - 1], Some(m), now)]))
  {
    var rest, r := ds[..|ds| - 1], NewRow(inbox, ds[|ds| - 1], Some(m), now);
    TakenRoom(o, db, inbox, ds, m, now, b);
    RowableNext(ds);
    RowsNext(inbox, ds, m, now);
    assert db.outbox + RowsOf(inbox, rest, m, now) + [r] == db.outbox + (RowsOf(inbox, rest, m, now) + [r]);
  }

  lemma PrefixBuilt(db: Db, t: Timer, chat: nat, ds: seq<Delivery>)
    requires ds != [] && Built(db, t, chat, ds)
    ensures Built(db, t, chat, ds[..|ds| - 1]) && BuiltOne(db, t, chat, ds[|ds| - 1])
  {
  }

  lemma NothingTaken(o: Options, db: Db, inbox: nat, m: nat, now: int)
    ensures Taken(o, db, inbox, [], m, now, db) && RevokesFit(o, db, [])
  {
    assert db.outbox + [] == db.outbox;
  }

  /** The next revoke of a built list is inserted exactly when it fits after the earlier ones. */
  lemma NextInsertsExactlyWhen(o: Options, db: Db, t: Timer, chat: nat, inbox: nat, ds: seq<Delivery>, now: int, b: Db)
    requires ds != [] && Built(db, t, chat, ds) && Taken(o, db, inbox, ds[..|ds| - 1], t.message, now, b)
    requires InsertRevokes(o, db, t, chat, inbox, ds[..|ds| - 1], now) == Ok(b)
    ensures InsertRevokes(o, db, t, chat, inbox, ds, now).Ok? <==> FitsOne(o, b, ds[|ds| - 1])
    ensures InsertRevokes(o, db, t, chat, inbox, ds, now).Ok? ==>
              Taken(o, db, inbox, ds, t.message, now, InsertRevokes(o, db, t, chat, inbox, ds, now).value)
  {
    var d := ds[|ds| - 1];
    PrefixBuilt(db, t, chat, ds);
    NextIsNew(o, db, t, chat, inbox, ds, now, b);
    InsertsExactlyWhen(o, b, inbox, d, t.message, now);
    if FitsOne(o, b, d) {
      TakenNext(o, db, inbox, ds, t.message, now, b);
    }
  }

  /** A built list is inserted exactly when it fits, and then row by row. */
  lemma {:induction false} BuiltInsertsExactlyWhen(o: Options, db: Db, t: Timer, chat: nat, inbox: nat, ds: seq<Delivery>,
                                                   now: int)
    requires Built(db, t, chat, ds)
    ensures InsertRevokes(o, db, t, chat, inbox, ds, now).Ok? <==> RevokesFit(o, db, ds)
    ensures InsertRevokes(o, db, t, chat, inbox, ds, now).Ok? ==>
              Taken(o, db, inbox, ds, t.message, now, InsertRevokes(o, db, t, chat, inbox, ds, now).value)
  {
    if ds == [] {
      NothingTaken(o, db, inbox, t.message, now);
    } else {
      PrefixBuilt(db, t, chat, ds);
      BuiltInsertsExactlyWhen(o, db, t, chat, inbox, ds[..|ds| - 1], now);
      if RevokesFit(o, db, ds) {
        PrefixFits(o, db, ds);
      }
      var before := InsertRevokes(o, db, t, chat, inbox, ds[..|ds| - 1], now);
      if before.Ok? {
        NextInsertsExactlyWhen(o, db, t, chat, inbox, ds, now, before.value);
        if RevokesFit(o, db, ds) {
          LastFits(o, db, inbox, ds, t.message, now, before.value);
        } else if FitsOne(o, before.value, ds[|ds| - 1]) {
          OneMoreFits(o, db, inbox, ds, t.message, now, before.value);
        }
      }
    }
  }

  // ----- the coordinator's list

  /** The claim still describes the timer, its message and its parts. */
  predicate StillClaimed(db: Db, c: ClaimedTimer) {
    && c.id < |db.timers| && TimerKey(db.timers[c.id]) == TimerKey(c.t) && c.t.message < |db.messages|
    && c.chat == db.messages[c.t.message].chat && c.parts == PartsOf(db.parts, c.t.message)
  }

  function ListFor(c: ClaimedTimer, sendId: nat -> string): seq<Delivery> {
    if c.t.kind.Expire? then Revokes(c, sendId, |c.parts|) else []
  }

  lemma SameKeySamePart(parts: seq<Part>, p: nat, q: nat)
    requires UniqueParts(parts) && p < |parts| && q < |parts| && parts[p].key == parts[q].key
    ensures p == q
  {
  }

  lemma NoStandingRevoke(db: Db, m: nat, d: Delivery)
    requires Linked(db) && RevokesDeleted(db) && m < |db.messages| && !db.messages[m].tombstone
    requires d.kind.MessageRevoke? && d.message == Some(m)
    ensures forall i :: 0 <= i < |db.outbox| ==> db.outbox[i].payload != d
  {
    forall i | 0 <= i < |db.outbox| ensures db.outbox[i].payload != d {
      assert RowLinked(db, i);
    }
  }

  lemma RevokeIsBuilt(db: Db, c: ClaimedTimer, sendId: nat -> string, i: nat)
    requires ExpiryReady(db) && StillClaimed(db, c) && c.t.kind.Expire? && !db.messages[c.t.message].tombstone
    requires i < |Revokes(c, sendId, |c.parts|)|
    ensures BuiltOne(db, db.timers[c.id], c.chat, Revokes(c, sendId, |c.parts|)[i])
  {
    var m, d := c.t.message, Revokes(c, sendId, |c.parts|)[i];
    var at := RemovableAt(c.parts, |c.parts|)[i];
    PartsOfMembers(db.parts, m);
    var q :| 0 <= q < |db.parts| && db.parts[q] == c.parts[at];
    assert Some(db.parts[q].key) == TargetOf(d) && db.parts[q].message == m;
    forall p | 0 <= p < |db.parts| && Some(db.parts[p].message) == Some(m) && Some(db.parts[p].key) == TargetOf(d)
      ensures db.parts[p].generation == d.generation
    {
      SameKeySamePart(db.parts, p, q);
    }
    NoStandingRevoke(db, m, d);
  }

  lemma ListIsBuilt(db: Db, c: ClaimedTimer, sendId: nat -> string)
    requires ExpiryReady(db) && StillClaimed(db, c) && c.t.kind.Expire? && !db.messages[c.t.message].tombstone
    ensures Built(db, db.timers[c.id], c.chat, ListFor(c, sendId)) && Covers(db.parts, c.t.message, ListFor(c, sendId))
  {
    BuiltRevokesCover(db.parts, c, sendId);
    forall i | 0 <= i < |ListFor(c, sendId)| ensures BuiltOne(db, db.timers[c.id], c.chat, ListFor(c, sendId)[i]) {
      RevokeIsBuilt(db, c, sendId, i);
    }
  }

  lemma ListHasOrigin(db: Db, c: ClaimedTimer, sendId: nat -> string)
    requires ExpiryReady(db) && StillClaimed(db, c) && ListFor(c, sendId) != []
    ensures OriginInbox(db.outbox, c.t.message).Some?
  {
    PartsOfMembers(db.parts, c.t.message);
    var at := RemovableAt(c.parts, |c.parts|)[0];
    var p :| 0 <= p < |db.parts| && db.parts[p] == c.parts[at];
    assert HasRowOf(db.outbox, c.t.message);
  }

  /** What ApplyTimer checks before it inserts the list. */
  lemma AppliesWhenInserted(o: Options, db: Db, t: Timer, ds: seq<Delivery>, now: int)
    requires HasRow(db.messages, t.message) && Schedulable(db.messages[t.message], t.kind, t.version)
    requires t.kind.Expire? ==> Covers(db.parts, t.message, ds)
    requires ds != [] ==> OriginInbox(db.outbox, t.message).Some?
    ensures var inbox := if ds == [] then 0 else OriginInbox(db.outbox, t.message).value;
      ApplyTimer(o, db, t, ds, now).Ok? <==> InsertRevokes(o, db, t, db.messages[t.message].chat, inbox, ds, now).Ok?
  {
    var inbox := if ds == [] then 0 else OriginInbox(db.outbox, t.message).value;
    if InsertRevokes(o, db, t, db.messages[t.message].chat, inbox, ds, now).Ok? {
      InsertRevokesAppends(o, db, t, db.messages[t.message].chat, inbox, ds, now);
    }
  }

  lemma NothingInserts(o: Options, db: Db, t: Timer, chat: nat, now: int)
    ensures InsertRevokes(o, db, t, chat, 0, [], now).Ok? && RevokesFit(o, db, [])
  {
  }

  lemma StandingAppliesExactlyWhen(o: Options, db: Db, c: ClaimedTimer, sendId: nat -> string, now: int)
    requires ExpiryReady(db) && StillClaimed(db, c) && Schedulable(db.messages[c.t.message], c.t.kind, c.t.version)
    ensures ApplyTimer(o, db, db.timers[c.id], ListFor(c, sendId), now).Ok? <==> RevokesFit(o, db, ListFor(c, sendId))
  {
    var t, ds := db.timers[c.id], ListFor(c, sendId);
    if c.t.kind.Expire? {
      ListIsBuilt(db, c, sendId);
    }
    if ds == [] {
      NothingInserts(o, db, t, c.chat, now);
      AppliesWhenInserted(o, db, t, ds, now);
    } else {
      ListHasOrigin(db, c, sendId);
      AppliesWhenInserted(o, db, t, ds, now);
      BuiltInsertsExactlyWhen(o, db, t, c.chat, OriginInbox(db.outbox, c.t.message).value, ds, now);
    }
  }

  lemma AppliesExactlyWhen(o: Options, db: Db, c: ClaimedTimer, sendId: nat -> string, now: int)
    requires ExpiryReady(db) && StillClaimed(db, c)
    ensures ApplyTimer(o, db, db.timers[c.id], ListFor(c, sendId), now).Ok? <==>
              Schedulable(db.messages[c.t.message], c.t.kind, c.t.version) && RevokesFit(o, db, ListFor(c, sendId))
  {
    if Schedulable(db.messages[c.t.message], c.t.kind, c.t.version) {
      StandingAppliesExactlyWhen(o, db, c, sendId, now);
    }
  }

  /** What CompleteTimer checks around the list. */
  lemma CompletesWhenApplied(o: Options, db: Db, id: nat, token: nat, ds: seq<Delivery>, now: int, clocks: Clocks)
    requires id < |db.timers| && db.timers[id].message < |db.messages|
    ensures CompleteTimer(o, db, id, token, ds, now, clocks).Ok? <==>
              && now != ZERO_TIME && LiveTimer(db, id, token, Fence(Fence(now, clocks.first), clocks.second))
              && ApplyTimer(o, db, db.timers[id], ds, Fence(now, clocks.first)).Ok?
  {
    var fenced := Fence(now, clocks.first);
    if ApplyTimer(o, db, db.timers[id], ds, fenced).Ok? {
      ApplyTimerParts(o, db, db.timers[id], ds, fenced);
    }
  }

  /**
   * The completion of a timer step succeeds exactly when the lease is live to the end, the message is at the scheduled
   * version, neither deleted nor (for an expiry) kept, and the store can take the list built from the message's parts.
   */
  lemma TimerCompletesExactlyWhen(o: Options, db: Db, c: ClaimedTimer, token: nat, sendId: nat -> string, now: int,
                                  clocks: Clocks)
    requires ExpiryReady(db) && StillClaimed(db, c)
    ensures var m, t := db.messages[c.t.message], db.timers[c.id];
      CompleteTimer(o, db, c.id, token, ListFor(c, sendId), now, clocks).Ok? <==>
        && now != ZERO_TIME && t.state == TimerLeased && t.lease.Some? && t.lease.value.token == token
        && t.lease.value.until > now && t.lease.value.until > clocks.first && t.lease.value.until > clocks.second
        && m.version == c.t.version && !m.tombstone && (c.t.kind == Expire ==> !m.kept)
        && RevokesFit(o, db, ListFor(c, sendId))
  {
    CompletesWhenApplied(o, db, c.id, token, ListFor(c, sendId), now, clocks);
    AppliesExactlyWhen(o, db, c, sendId, Fence(now, clocks.first));
  }

  /** The list has one revoke for each removable part, in that part's own generation. */
  lemma ListNames(c: ClaimedTimer, sendId: nat -> string, p: nat) returns (i: nat)
    requires c.t.kind.Expire? && p < |c.parts| && Removable(c.parts[p])
    ensures i < |ListFor(c, sendId)| && ListFor(c, sendId)[i] == RevokeFor(c, c.parts[p], sendId(p))
    ensures RemovableAt(c.parts, |c.parts|)[i] == p
  {
    i :| 0 <= i < |RemovableAt(c.parts, |c.parts|)| && RemovableAt(c.parts, |c.parts|)[i] == p;
  }

  /** After a rebind, or while the chat is not active, the expiry of a message with a removable part of then is refused. */
  lemma OldPartBlocksExpiry(o: Options, db: Db, c: ClaimedTimer, p: nat, token: nat, sendId: nat -> string, now: int,
                            clocks: Clocks)
    requires ExpiryReady(db) && StillClaimed(db, c) && c.t.kind.Expire? && p < |c.parts| && Removable(c.parts[p])
    requires c.chat < |db.chats|
    requires !db.chats[c.chat].state.Active? || c.parts[p].generation != db.chats[c.chat].generation
    ensures CompleteTimer(o, db, c.id, token, ListFor(c, sendId), now, clocks).Err?
  {
    TimerCompletesExactlyWhen(o, db, c, token, sendId, now, clocks);
    var i := ListNames(c, sendId, p);
    assert !ChatReady(db, ListFor(c, sendId)[i]);
  }

  /** Two removable parts that share a platform and a remote id, whatever their authors, block the expiry. */
  lemma SharedIdBlocksExpiry(o: Options, db: Db, c: ClaimedTimer, p: nat, q: nat, token: nat, sendId: nat -> string,
                             now: int, clocks: Clocks)
    requires ExpiryReady(db) && StillClaimed(db, c) && c.t.kind.Expire? && p < q < |c.parts|
    requires Removable(c.parts[p]) && Removable(c.parts[q])
    requires c.parts[p].key.platform == c.parts[q].key.platform && c.parts[p].key.id == c.parts[q].key.id
    ensures CompleteTimer(o, db, c.id, token, ListFor(c, sendId), now, clocks).Err?
  {
    TimerCompletesExactlyWhen(o, db, c, token, sendId, now, clocks);
    var i := ListNames(c, sendId, p);
    var j := ListNames(c, sendId, q);
    var ds := ListFor(c, sendId);
    assert ds[i].operationKey == ds[j].operationKey;
    assert i != j;
    assert !Apart(ds[i], ds[j]) && !Apart(ds[j], ds[i]);
  }

  // ----- a whole timer step

  /** Databases that differ in timer states and leases only. */
  predicate TimersOnly(a: Db, b: Db) {
    && b == a.(timers := b.timers) && |b.timers| == |a.timers|
    && forall i :: 0 <= i < |a.timers| ==> TimerKey(b.timers[i]) == TimerKey(a.timers[i])
  }

  lemma TimersOnlyKeepsReady(a: Db, b: Db)
    requires ExpiryReady(a) && TimersOnly(a, b)
    ensures ExpiryReady(b)
  {
    forall i | 0 <= i < |b.outbox| ensures RowLinked(b, i) {
      assert RowLinked(a, i);
    }
    forall p | 0 <= p < |b.parts| ensures PartLinked(b, b.parts[p]) {
      assert PartLinked(a, a.parts[p]);
    }
    forall t | 0 <= t < |b.timers| ensures b.timers[t].message < |b.messages| {
      assert TimerKey(b.timers[t]) == TimerKey(a.timers[t]);
    }
  }

  lemma ClaimTouchesTimersOnly(db: Db, token: nat, now: int, ttl: int, clock: int)
    requires ClaimTimer(db, token, now, ttl, clock).Ok?
    ensures TimersOnly(db, ClaimTimer(db, token, now, ttl, clock).value.db)
  {
  }

  lemma ClaimedStands(db: Db, token: nat, now: int, ttl: int, clock: int)
    requires ClaimTimer(db, token, now, ttl, clock).Ok? && ClaimTimer(db, token, now, ttl, clock).value.id.Some?
    ensures var id, b := ClaimTimer(db, token, now, ttl, clock).value.id.value, ClaimTimer(db, token, now, ttl, clock).value.db;
      && id < |db.timers| && db.timers[id].message < |db.messages| && StillClaimed(b, ClaimedOf(db, id, token))
      && b.messages == db.messages && Due(db, id, Fence(now, clock))
      && id < |b.timers| && b.timers[id].state.TimerLeased? && b.timers[id].lease == Some(Lease(token, Fence(now, clock) + ttl))
  {
    ClaimTouchesTimersOnly(db, token, now, ttl, clock);
    ClaimedTimerIsDue(db, token, now, ttl, clock);
  }

  lemma SameRoom(o: Options, a: Db, b: Db, ds: seq<Delivery>)
    requires TimersOnly(a, b)
    ensures RevokesFit(o, a, ds) <==> RevokesFit(o, b, ds)
  {
    forall i | 0 <= i < |ds| ensures Placeable(o, a, ds[i]) <==> Placeable(o, b, ds[i]) {
    }
  }

  /**
   * A timer step that claims a timer completes it exactly when it does so before its own lease ends and the store can take
   * the list: nothing to remove, or an active chat whose generation every removable part still has, well-formed revokes
   * with free and distinct keys and send ids, and room for all of them.
   */
  lemma StepCompletesExactlyWhen(o: Options, db: Db, token: nat, now: int, ttl: int, clock: int, clocks: Clocks,
                                 sendId: nat -> string)
    requires ExpiryReady(db) && ClaimTimer(db, token, now, ttl, clock).Ok?
    requires ClaimTimer(db, token, now, ttl, clock).value.id.Some?
    ensures var id, b := ClaimTimer(db, token, now, ttl, clock).value.id.value, ClaimTimer(db, token, now, ttl, clock).value.db;
      && id < |db.timers| && db.timers[id].message < |db.messages|
      && var ds := ListFor(ClaimedOf(db, id, token), sendId);
         CompleteTimer(o, b, id, token, ds, now, clocks).Ok? <==>
           var until := (if clock > now then clock else now) + ttl;
           clocks.first < until && clocks.second < until && RevokesFit(o, db, ds)
  {
    var id, b := ClaimTimer(db, token, now, ttl, clock).value.id.value, ClaimTimer(db, token, now, ttl, clock).value.db;
    ClaimTouchesTimersOnly(db, token, now, ttl, clock);
    TimersOnlyKeepsReady(db, b);
    ClaimedStands(db, token, now, ttl, clock);
    TimerCompletesExactlyWhen(o, b, ClaimedOf(db, id, token), token, sendId, now, clocks);
    SameRoom(o, db, b, ListFor(ClaimedOf(db, id, token), sendId));
  }
}
