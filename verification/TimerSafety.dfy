/** A claimed timer is due and current, and an expiry deletes only the version it was scheduled for. */
module TimerSafety {
  import opened Prelude
  import opened Domain
  import opened Database
  import opened Planning
  import opened Timers
  import opened Queues
  import opened QuietTransactions
  import opened Steps
  import opened Keys
  import Provenance

  /** A message has at most one timer in work. */
  predicate TimersSafe(timers: seq<Timer>) {
    forall i, j :: 0 <= i < j < |timers| && timers[i].state.TimerLeased? && timers[j].state.TimerLeased? ==>
      timers[i].message != timers[j].message
  }

  lemma QuietKeepsTimersSafe(a: seq<Timer>, b: seq<Timer>)
    requires TimersSafe(a) && QuietTimers(a, b)
    requires forall i :: 0 <= i < |b| ==> TimerShape(b[i])
    requires forall i :: 0 <= i < |a| ==> TimerShape(a[i])
    ensures TimersSafe(b)
  {
    forall i | 0 <= i < |b| && b[i].lease.Some?
      ensures i < |a| && a[i].state.TimerLeased? && a[i].message == b[i].message
    {
      assert i < |a| ==> QuietTimer(a[i], b[i]);
    }
  }

  lemma ClaimTimerSafe(db: Db, token: nat, now: int, ttl: int, clock: int)
    requires LeaseShape(db) && TimersSafe(db.timers) && ClaimTimer(db, token, now, ttl, clock).Ok?
    ensures TimersSafe(ClaimTimer(db, token, now, ttl, clock).value.db.timers)
  {
    CancelQuiet(db);
    QuietKeepsShape(db, CancelObsolete(db));
    QuietKeepsTimersSafe(db.timers, CancelObsolete(db).timers);
  }

  /** Two timers of one message are never in work together. */
  lemma StepKeepsTimersSafe(o: Options, db: Db, token: nat, s: Step)
    requires LeaseShape(db) && TimersSafe(db.timers)
    ensures TimersSafe(After(o, db, token, s).timers)
  {
    StepKeepsShape(o, db, token, s);
    if Outcome(o, db, token, s).Ok? {
      if s.ClaimTimerStep? {
        ClaimTimerSafe(db, token, s.now, s.ttl, s.clock);
      } else if !ClaimStep(s) {
        StepIsQuiet(o, db, token, s);
        QuietKeepsTimersSafe(db.timers, After(o, db, token, s).timers);
      }
    }
  }

  /** Due at `t`, for the current version of a message that is not deleted nor, for an expiry, kept, and alone in work. */
  ghost predicate Due(db: Db, i: int, t: int) {
    && 0 <= i < |db.timers| && db.timers[i].state == TimerPending && db.timers[i].deadline <= t
    && db.timers[i].message < |db.messages| && db.messages[db.timers[i].message].version == db.timers[i].version
    && !db.messages[db.timers[i].message].tombstone
    && (db.timers[i].kind == Expire ==> !db.messages[db.timers[i].message].kept)
    && forall j :: 0 <= j < |db.timers| && db.timers[j].message == db.timers[i].message ==> db.timers[j].state != TimerLeased
  }

  /** A pending timer whose message was deleted, changed or, for an expiry, kept since. */
  ghost predicate Overtaken(db: Db, t: Timer) {
    && t.state == TimerPending && t.message < |db.messages|
    && (db.messages[t.message].tombstone || db.messages[t.message].version != t.version
        || (t.kind == Expire && db.messages[t.message].kept))
  }

  lemma DueAfterCancelling(db: Db, i: nat, t: int)
    requires i < |db.timers|
    ensures TimerDue(CancelObsolete(db), i, t) <==> Due(db, i, t)
  {
    var kept := CancelObsolete(db);
    forall j | 0 <= j < |db.timers|
      ensures kept.timers[j].message == db.timers[j].message
              && (kept.timers[j].state == TimerLeased <==> db.timers[j].state == TimerLeased)
    {
    }
  }

  /**
   * A claim cancels exactly the overtaken timers and leases the due timer of least deadline, the first of them if several
   * have it, or none if none is due. Nothing else changes.
   */
  lemma ClaimedTimerIsDue(db: Db, token: nat, now: int, ttl: int, clock: int)
    ensures var t, c := if clock > now then clock else now, ClaimTimer(db, token, now, ttl, clock);
      if now == ZERO_TIME || ttl < 1 || ttl > 3600000 then c == Err(Invalid)
      else
        && c.Ok?
        && var b, id := c.value.db, c.value.id;
        && b == db.(timers := b.timers) && |b.timers| == |db.timers|
        && (forall j :: 0 <= j < |db.timers| && (id.Some? ==> j != id.value) ==>
              b.timers[j] == if Overtaken(db, db.timers[j]) then db.timers[j].(state := TimerCancelled) else db.timers[j])
        && (id.None? ==> forall j :: !Due(db, j, t))
        && (id.Some? ==>
              && Due(db, id.value, t)
              && b.timers[id.value] == db.timers[id.value].(state := TimerLeased, lease := Some(Lease(token, t + ttl)))
              && forall j :: Due(db, j, t) && j != id.value ==>
                   db.timers[id.value].deadline < db.timers[j].deadline
                   || (db.timers[id.value].deadline == db.timers[j].deadline && id.value < j))
  {
    var t := if clock > now then clock else now;
    forall j | 0 <= j < |db.timers| ensures TimerDue(CancelObsolete(db), j, t) <==> Due(db, j, t) {
      DueAfterCancelling(db, j, t);
    }
  }

  predicate RevokesPart(r: OutboxRow, m: nat, key: Key, version: SourceVersion) {
    r.payload.message == Some(m) && r.payload.kind.MessageRevoke? && TargetOf(r.payload) == Some(key)
    && r.payload.version == version
  }

  /** A row that revokes exactly this part, for exactly this version. */
  predicate RevokeBacked(outbox: seq<OutboxRow>, m: nat, key: Key, version: SourceVersion) {
    exists r :: 0 <= r < |outbox| && RevokesPart(outbox[r], m, key, version)
  }

  lemma SupersedeKeepsRevokes(outbox: seq<OutboxRow>, m: nat, key: Key, version: SourceVersion)
    requires RevokeBacked(outbox, m, key, version)
    ensures RevokeBacked(Supersede(outbox, m, false), m, key, version)
  {
    var r :| 0 <= r < |outbox| && RevokesPart(outbox[r], m, key, version);
    assert RevokesPart(Supersede(outbox, m, false)[r], m, key, version);
  }

  lemma InsertBacked(o: Options, db: Db, inbox: nat, d: Delivery, m: nat, now: int)
    requires InsertDelivery(o, db, inbox, d, Some(m), now).Ok? && d.kind.MessageRevoke?
    ensures db.outbox <= InsertDelivery(o, db, inbox, d, Some(m), now).value.outbox && d.target.Some?
    ensures RevokeBacked(InsertDelivery(o, db, inbox, d, Some(m), now).value.outbox, m, RefKey(d.target.value), d.version)
  {
    var b := InsertDelivery(o, db, inbox, d, Some(m), now).value;
    var known := FindOperation(db.outbox, d.operationKey);
    var r := if known.Some? then known.value else |db.outbox|;
    assert RevokesPart(b.outbox[r], m, RefKey(d.target.value), d.version);
  }

  lemma LongerStaysBacked(a: seq<OutboxRow>, b: seq<OutboxRow>, m: nat, key: Key, version: SourceVersion)
    requires a <= b && RevokeBacked(a, m, key, version)
    ensures RevokeBacked(b, m, key, version)
  {
    var r :| 0 <= r < |a| && RevokesPart(a[r], m, key, version);
    assert RevokesPart(b[r], m, key, version);
  }

  predicate AllBacked(outbox: seq<OutboxRow>, m: nat, ds: seq<Delivery>, version: SourceVersion) {
    forall d :: d in ds ==> d.target.Some? && RevokeBacked(outbox, m, RefKey(d.target.value), version)
  }

  lemma OneMoreBacked(a: seq<OutboxRow>, b: seq<OutboxRow>, m: nat, ds: seq<Delivery>, version: SourceVersion)
    requires ds != [] && a <= b && AllBacked(a, m, ds[..|ds| - 1], version) && ds[|ds| - 1].target.Some?
    requires RevokeBacked(b, m, RefKey(ds[|ds| - 1].target.value), version)
    ensures AllBacked(b, m, ds, version)
  {
    forall d | d in ds ensures d.target.Some? && RevokeBacked(b, m, RefKey(d.target.value), version) {
      if d in ds[..|ds| - 1] {
        LongerStaysBacked(a, b, m, RefKey(d.target.value), version);
      }
    }
  }

  lemma {:induction false} InsertRevokesBacked(o: Options, db: Db, t: Timer, chat: nat, inbox: nat, ds: seq<Delivery>,
                                               now: int)
    requires InsertRevokes(o, db, t, chat, inbox, ds, now).Ok?
    ensures AllBacked(InsertRevokes(o, db, t, chat, inbox, ds, now).value.outbox, t.message, ds, t.version)
  {
    if ds != [] {
      var n := |ds| - 1;
      var before := InsertRevokes(o, db, t, chat, inbox, ds[..n], now).value;
      InsertRevokesBacked(o, db, t, chat, inbox, ds[..n], now);
      InsertBacked(o, before, inbox, ds[n], t.message, now);
      OneMoreBacked(before.outbox, InsertRevokes(o, db, t, chat, inbox, ds, now).value.outbox, t.message, ds, t.version);
    }
  }

  lemma ApplyTimerMessage(o: Options, db: Db, t: Timer, ds: seq<Delivery>, now: int)
    requires HasRow(db.messages, t.message) && ApplyTimer(o, db, t, ds, now).Ok? && t.kind.Expire?
    ensures var m, b := t.message, ApplyTimer(o, db, t, ds, now).value;
      && Schedulable(db.messages[m], Expire, t.version) && Covers(db.parts, m, ds)
      && m < |b.messages| && b.messages == db.messages[m := db.messages[m].(tombstone := true, text := None)]
  {
    var m := t.message;
    var inbox := if ds == [] then 0 else OriginInbox(db.outbox, m).value;
    InsertRevokesAppends(o, db, t, db.messages[m].chat, inbox, ds, now);
  }

  lemma NamedIsBacked(outbox: seq<OutboxRow>, m: nat, ds: seq<Delivery>, version: SourceVersion, i: nat, key: Key)
    requires AllBacked(outbox, m, ds, version) && i < |ds| && TargetOf(ds[i]) == Some(key)
    ensures RevokeBacked(outbox, m, key, version)
  {
    assert ds[i] in ds;
  }

  /** All removable parts of the message are revoked in this outbox. */
  predicate PartsRevoked(parts: seq<Part>, outbox: seq<OutboxRow>, m: nat, version: SourceVersion) {
    forall p :: 0 <= p < |parts| && parts[p].message == m && Removable(parts[p]) ==>
      RevokeBacked(outbox, m, parts[p].key, version)
  }

  lemma CoverRevokesParts(parts: seq<Part>, outbox: seq<OutboxRow>, m: nat, ds: seq<Delivery>, version: SourceVersion)
    requires Covers(parts, m, ds) && AllBacked(outbox, m, ds, version)
    ensures PartsRevoked(parts, Supersede(outbox, m, false), m, version)
  {
    forall p | 0 <= p < |parts| && parts[p].message == m && Removable(parts[p])
      ensures RevokeBacked(Supersede(outbox, m, false), m, parts[p].key, version)
    {
      var i :| 0 <= i < |ds| && TargetOf(ds[i]) == Some(parts[p].key);
      NamedIsBacked(outbox, m, ds, version, i, parts[p].key);
      SupersedeKeepsRevokes(outbox, m, parts[p].key, version);
    }
  }

  /** Every removable part of an expiring message gets a revoke row in the same transaction. */
  lemma ApplyTimerBacked(o: Options, db: Db, t: Timer, ds: seq<Delivery>, now: int)
    requires HasRow(db.messages, t.message) && ApplyTimer(o, db, t, ds, now).Ok? && t.kind.Expire?
    ensures PartsRevoked(db.parts, ApplyTimer(o, db, t, ds, now).value.outbox, t.message, t.version)
  {
    var m := t.message;
    var inbox := if ds == [] then 0 else OriginInbox(db.outbox, m).value;
    InsertRevokesBacked(o, db, t, db.messages[m].chat, inbox, ds, now);
    CoverRevokesParts(db.parts, InsertRevokes(o, db, t, db.messages[m].chat, inbox, ds, now).value.outbox, m, ds, t.version);
  }

  /** A standing part of the message, the bridge's own, that its platform lets it remove. */
  predicate MustGo(p: Part, m: nat) {
    && p.message == m && p.owned && !p.deleted && !p.retired
    && (if p.key.platform == Telegram then CanDelete else CanRevoke) in p.caps
  }

  ghost predicate Named(ds: seq<Delivery>, key: Key) {
    exists i :: 0 <= i < |ds| && TargetOf(ds[i]) == Some(key)
  }

  ghost predicate NamesPart(parts: seq<Part>, m: nat, d: Delivery) {
    exists p :: 0 <= p < |parts| && MustGo(parts[p], m) && TargetOf(d) == Some(parts[p].key)
  }

  /** The deliveries name each part that must go exactly once and nothing else. */
  ghost predicate NamesAll(parts: seq<Part>, m: nat, ds: seq<Delivery>) {
    && (forall p :: 0 <= p < |parts| && MustGo(parts[p], m) ==> Named(ds, parts[p].key))
    && (forall i :: 0 <= i < |ds| ==> NamesPart(parts, m, ds[i]))
    && forall i, j :: 0 <= i < j < |ds| ==> TargetOf(ds[i]) != TargetOf(ds[j])
  }

  lemma CoverNamesAll(parts: seq<Part>, m: nat, ds: seq<Delivery>)
    requires Covers(parts, m, ds)
    ensures NamesAll(parts, m, ds)
  {
    forall i | 0 <= i < |ds| ensures NamesPart(parts, m, ds[i]) {
      var key := RefKey(ds[i].target.value);
      assert Needed(parts, m, key);
      var p :| 0 <= p < |parts| && parts[p].message == m && Removable(parts[p]) && parts[p].key == key;
      assert MustGo(parts[p], m);
    }
    forall p | 0 <= p < |parts| && MustGo(parts[p], m) ensures Named(ds, parts[p].key) {
      assert Removable(parts[p]);
    }
  }

  /** All parts that must go are revoked in this outbox. */
  ghost predicate AllRevoked(parts: seq<Part>, outbox: seq<OutboxRow>, m: nat, version: SourceVersion) {
    forall p :: 0 <= p < |parts| && MustGo(parts[p], m) ==>
      exists r :: 0 <= r < |outbox| && outbox[r].payload.message == Some(m) && outbox[r].payload.kind == MessageRevoke
                  && outbox[r].payload.version == version && TargetOf(outbox[r].payload) == Some(parts[p].key)
  }

  lemma RevokedIsAllRevoked(parts: seq<Part>, outbox: seq<OutboxRow>, m: nat, version: SourceVersion)
    requires PartsRevoked(parts, outbox, m, version)
    ensures AllRevoked(parts, outbox, m, version)
  {
    forall p | 0 <= p < |parts| && MustGo(parts[p], m)
      ensures exists r :: 0 <= r < |outbox| && outbox[r].payload.message == Some(m) && outbox[r].payload.kind == MessageRevoke
                          && outbox[r].payload.version == version && TargetOf(outbox[r].payload) == Some(parts[p].key)
    {
      var r :| 0 <= r < |outbox| && RevokesPart(outbox[r], m, parts[p].key, version);
    }
  }

  /**
   * A message that an expiry deletes was, at that step, neither kept nor deleted and at exactly the scheduled version, and
   * only its flag and text change. The deliveries name each part that must go exactly once and nothing else, and every
   * such part has a revoke row of this version that commits together with the deletion.
   */
  lemma ExpiryIsExact(o: Options, db: Db, id: int, token: nat, ds: seq<Delivery>, now: int, clocks: Clocks)
    requires CompleteTimer(o, db, id, token, ds, now, clocks).Ok? && db.timers[id].kind.Expire?
    ensures var t, b := db.timers[id], CompleteTimer(o, db, id, token, ds, now, clocks).value;
      && t.message < |db.messages| && db.messages[t.message].version == t.version
      && !db.messages[t.message].kept && !db.messages[t.message].tombstone
      && b.messages == db.messages[t.message := db.messages[t.message].(tombstone := true, text := None)]
      && NamesAll(db.parts, t.message, ds) && AllRevoked(db.parts, b.outbox, t.message, t.version)
  {
    var t, b := db.timers[id], CompleteTimer(o, db, id, token, ds, now, clocks).value;
    ApplyTimerMessage(o, db, t, ds, Fence(now, clocks.first));
    ApplyTimerBacked(o, db, t, ds, Fence(now, clocks.first));
    CoverNamesAll(db.parts, t.message, ds);
    RevokedIsAllRevoked(db.parts, b.outbox, t.message, t.version);
  }

  lemma OnlyExpiriesRevoke(o: Options, db: Db, t: Timer, ds: seq<Delivery>, now: int)
    requires HasRow(db.messages, t.message) && ApplyTimer(o, db, t, ds, now).Ok? && t.kind != Expire
    ensures ds == [] && ApplyTimer(o, db, t, ds, now) == Ok(db)
  {
  }

  lemma {:induction false} InsertedRevokes(o: Options, db: Db, t: Timer, chat: nat, inbox: nat, ds: seq<Delivery>, now: int)
    requires InsertRevokes(o, db, t, chat, inbox, ds, now).Ok?
    ensures var b := InsertRevokes(o, db, t, chat, inbox, ds, now).value;
      && db.outbox <= b.outbox && b == db.(outbox := b.outbox)
      && forall i :: |db.outbox| <= i < |b.outbox| ==>
           && b.outbox[i].state == Pending && b.outbox[i].operation == MessageRevoke && b.outbox[i].message == Some(t.message)
           && b.outbox[i].payload.version == t.version
  {
    if ds != [] {
      InsertedRevokes(o, db, t, chat, inbox, ds[..|ds| - 1], now);
    }
  }

  /**
   * No timer completes but under its live lease and for the current version of a message that is not deleted nor, for an
   * expiry, kept. Then it is done, and no other timer changes; one that is no expiry changes nothing else either.
   */
  lemma CompletedTimerIsCurrent(o: Options, db: Db, id: int, token: nat, ds: seq<Delivery>, now: int, clocks: Clocks)
    requires CompleteTimer(o, db, id, token, ds, now, clocks).Ok?
    ensures HasRow(db.timers, id) && db.timers[id].message < |db.messages|
    ensures var t, m, b := db.timers[id], db.messages[db.timers[id].message],
                           CompleteTimer(o, db, id, token, ds, now, clocks).value;
      && m.version == t.version && !m.tombstone && (t.kind == Expire ==> !m.kept)
      && t.state == TimerLeased && t.lease.Some? && t.lease.value.token == token
      && t.lease.value.until > now && t.lease.value.until > clocks.first && t.lease.value.until > clocks.second
      && b.timers == db.timers[id := t.(state := TimerDone, lease := None)]
      && (t.kind != Expire ==> b == db.(timers := b.timers))
  {
    var t, fenced := db.timers[id], Fence(now, clocks.first);
    ApplyTimerParts(o, db, t, ds, fenced);
    if t.kind != Expire {
      OnlyExpiriesRevoke(o, db, t, ds, fenced);
    }
  }

  /** The parts of an expired message are deleted with their source states, and other parts stay as they are. */
  lemma ExpiryDeletesParts(o: Options, db: Db, id: int, token: nat, ds: seq<Delivery>, now: int, clocks: Clocks)
    requires CompleteTimer(o, db, id, token, ds, now, clocks).Ok? && db.timers[id].kind.Expire?
    ensures var m, b := db.timers[id].message, CompleteTimer(o, db, id, token, ds, now, clocks).value;
      && b == db.(messages := b.messages, parts := b.parts, outbox := b.outbox, timers := b.timers)
      && |b.parts| == |db.parts|
      && forall p :: 0 <= p < |b.parts| ==>
           b.parts[p] == if db.parts[p].message == m then db.parts[p].(deleted := true, sourceDeleted := true)
                         else db.parts[p]
  {
    ApplyTimerParts(o, db, db.timers[id], ds, Fence(now, clocks.first));
  }

  /** The first row of the message came from this event. */
  ghost predicate BeganWith(outbox: seq<OutboxRow>, m: nat, inbox: nat) {
    exists i :: 0 <= i < |outbox| && outbox[i].message == Some(m) && outbox[i].inbox == inbox
                && forall j :: 0 <= j < i ==> outbox[j].message != Some(m)
  }

  lemma SupersedesOldRows(a: seq<OutboxRow>, planned: seq<OutboxRow>, m: nat)
    requires a <= planned && forall i :: |a| <= i < |planned| ==> planned[i].operation == MessageRevoke
    ensures var b := Supersede(planned, m, false);
      && (forall i :: 0 <= i < |a| ==>
            b[i] == if a[i].message == Some(m) && a[i].startedAt == None && (a[i].state == Pending || a[i].state == Leased)
                       && (a[i].operation == MessageCreate || a[i].operation == MessageEdit || a[i].operation == ReactionSet)
                    then a[i].(state := Superseded, lease := None) else a[i])
      && forall i :: |a| <= i < |planned| ==> b[i] == planned[i]
  {
  }

  lemma RevokesOfFirst(o: Options, db: Db, t: Timer, chat: nat, inbox: nat, ds: seq<Delivery>, now: int)
    requires InsertRevokes(o, db, t, chat, inbox, ds, now).Ok? && (ds != [] ==> OriginInbox(db.outbox, t.message) == Some(inbox))
    ensures var b := InsertRevokes(o, db, t, chat, inbox, ds, now).value.outbox;
      forall i :: |db.outbox| <= i < |b| ==> BeganWith(db.outbox, t.message, b[i].inbox)
  {
    Provenance.InsertRevokesOrigin(o, db, t, chat, inbox, ds, now);
    if ds != [] {
      var first := FirstIndex(db.outbox, (r: OutboxRow) => r.message == Some(t.message)).value;
      assert db.outbox[first].inbox == inbox;
      assert BeganWith(db.outbox, t.message, inbox);
    }
  }

  /**
   * An expiry supersedes the message's unsent creates, edits and reactions, and every row it adds revokes for the scheduled
   * version, in the name of the event the message's first row came from. Other rows stay.
   */
  lemma ExpiryRows(o: Options, db: Db, id: int, token: nat, ds: seq<Delivery>, now: int, clocks: Clocks)
    requires CompleteTimer(o, db, id, token, ds, now, clocks).Ok? && db.timers[id].kind.Expire?
    ensures var m, a, b := db.timers[id].message, db.outbox, CompleteTimer(o, db, id, token, ds, now, clocks).value.outbox;
      && |a| <= |b|
      && (forall i :: 0 <= i < |a| ==>
            b[i] == if a[i].message == Some(m) && a[i].startedAt == None && (a[i].state == Pending || a[i].state == Leased)
                       && (a[i].operation == MessageCreate || a[i].operation == MessageEdit || a[i].operation == ReactionSet)
                    then a[i].(state := Superseded, lease := None) else a[i])
      && (forall i :: |a| <= i < |b| ==>
            && b[i].state == Pending && b[i].operation == MessageRevoke && b[i].message == Some(m)
            && b[i].payload.version == db.timers[id].version && BeganWith(a, m, b[i].inbox))
  {
    var t, fenced := db.timers[id], Fence(now, clocks.first);
    var m := t.message;
    var inbox := if ds == [] then 0 else OriginInbox(db.outbox, m).value;
    RevokesOfFirst(o, db, t, db.messages[m].chat, inbox, ds, fenced);
    InsertedRevokes(o, db, t, db.messages[m].chat, inbox, ds, fenced);
    SupersedesOldRows(db.outbox, InsertRevokes(o, db, t, db.messages[m].chat, inbox, ds, fenced).value.outbox, m);
  }

  predicate IsTimer(timers: seq<Timer>, t: int, m: nat, kind: TimerKind, version: SourceVersion) {
    0 <= t < |timers| && timers[t].message == m && timers[t].kind == kind && timers[t].version == version
  }

  /**
   * A timer is scheduled exactly when it is known with this deadline, or new and for the current version of a message that
   * is not deleted nor, for an expiry, kept. A known timer stays as it is; a new one is added, pending.
   */
  lemma SchedulesExactlyWhen(db: Db, spec: TimerSpec)
    requires UniqueTimers(db.timers)
    ensures ScheduleTimer(db, spec).Ok? <==>
              && spec.message.Some? && spec.message.value >= 0 && spec.version.Valid() && spec.deadline != ZERO_TIME
              && var m := spec.message.value;
                 if exists t :: IsTimer(db.timers, t, m, spec.kind, spec.version)
                 then exists t :: IsTimer(db.timers, t, m, spec.kind, spec.version) && db.timers[t].deadline == spec.deadline
                 else && m < |db.messages| && db.messages[m].version == spec.version && !db.messages[m].tombstone
                      && (spec.kind == Expire ==> !db.messages[m].kept)
    ensures ScheduleTimer(db, spec).Ok? ==>
              var s, m := ScheduleTimer(db, spec).value, spec.message.value;
              && IsTimer(s.db.timers, s.id, m, spec.kind, spec.version) && s.db.timers[s.id].deadline == spec.deadline
              && (s.id < |db.timers| ==> s.db == db)
              && (s.id >= |db.timers| ==> s.db == db.(timers := db.timers
                    + [Timer(m, spec.kind, spec.version, spec.deadline, TimerPending, None)]))
  {
    if spec.message.Some? && spec.message.value >= 0 {
      var m := spec.message.value;
      var known := FindTimer(db.timers, m, spec.kind, spec.version);
      forall t | IsTimer(db.timers, t, m, spec.kind, spec.version) ensures known == Some(t) {
        assert TimerKey(db.timers[t]) == (m, spec.kind, spec.version);
      }
      assert known.Some? ==> IsTimer(db.timers, known.value, m, spec.kind, spec.version);
    }
  }
}
