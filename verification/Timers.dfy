/** Expiry and mapping-wait timers: `internal/store/timers.go`. */
module Timers {
  import opened Prelude
  import opened Domain
  import opened Database
  import opened InboxWork
  import opened Planning

  /** A pending timer of a deleted, changed or kept message is cancelled at the next claim. */
  predicate Obsolete(db: Db, t: Timer) {
    t.state.TimerPending? && HasRow(db.messages, t.message) && !Schedulable(db.messages[t.message], t.kind, t.version)
  }

  function CancelObsolete(db: Db): Db {
    db.(timers := seq(|db.timers|, i requires 0 <= i < |db.timers| =>
      if Obsolete(db, db.timers[i]) then db.timers[i].(state := TimerCancelled) else db.timers[i]))
  }

  predicate TimerDue(db: Db, i: nat, now: int)
    requires i < |db.timers|
  {
    && db.timers[i].state.TimerPending? && db.timers[i].deadline <= now && HasRow(db.messages, db.timers[i].message)
    && forall j :: 0 <= j < |db.timers| && db.timers[j].message == db.timers[i].message ==> !db.timers[j].state.TimerLeased?
  }

  /** The due timer with the least deadline, and the least id among equals. */
  function NextTimer(db: Db, now: int, below: nat): (r: Option<nat>)
    requires below <= |db.timers|
    ensures r.Some? ==> r.value < below && TimerDue(db, r.value, now)
    ensures r.Some? ==> forall j :: 0 <= j < below && TimerDue(db, j, now) ==>
              db.timers[r.value].deadline < db.timers[j].deadline
              || (db.timers[r.value].deadline == db.timers[j].deadline && r.value <= j)
    ensures r.None? ==> forall j :: 0 <= j < below ==> !TimerDue(db, j, now)
  {
    if below == 0 then None
    else
      var best := NextTimer(db, now, below - 1);
      if TimerDue(db, below - 1, now) && (best.None? || db.timers[below - 1].deadline < db.timers[best.value].deadline)
      then Some(below - 1) else best
  }

  function LeaseTimer(db: Db, i: nat, lease: Lease): Db
    requires i < |db.timers|
  {
    db.(timers := db.timers[i := db.timers[i].(state := TimerLeased, lease := Some(lease))])
  }

  /** Without due work the cancellations still commit. */
  datatype TimerClaim = TimerClaim(db: Db, id: Option<nat>)

  function ClaimTimer(db: Db, token: nat, now: int, ttl: int, clock: int): Result<TimerClaim> {
    if !ValidLease(now, ttl) then Err(Invalid)
    else
      var t := Fence(now, clock);
      var kept := CancelObsolete(db);
      var next := NextTimer(kept, t, |kept.timers|);
      if next.None? then Ok(TimerClaim(kept, None))
      else Ok(TimerClaim(LeaseTimer(kept, next.value, Lease(token, t + ttl)), next))
  }

  predicate LiveTimer(db: Db, id: int, token: nat, now: int) {
    HasRow(db.timers, id) && db.timers[id].state.TimerLeased? && HeldLease(db.timers[id].lease, token, now)
  }

  /** The parts an expiry must remove: the bridge's own, still standing and removable. */
  predicate Removable(p: Part) {
    p.owned && !p.deleted && !p.retired && RemovalCapability(p.key.platform) in p.caps
  }

  ghost predicate Needed(parts: seq<Part>, m: nat, key: Key) {
    exists p :: 0 <= p < |parts| && parts[p].message == m && Removable(parts[p]) && parts[p].key == key
  }

  /** The deliveries name every removable part exactly once and nothing else. */
  ghost predicate Covers(parts: seq<Part>, m: nat, ds: seq<Delivery>) {
    && (forall i :: 0 <= i < |ds| ==> ds[i].target.Some? && Needed(parts, m, RefKey(ds[i].target.value)))
    && (forall i, j :: 0 <= i < j < |ds| ==> TargetOf(ds[i]) != TargetOf(ds[j]))
    && (forall p :: 0 <= p < |parts| && parts[p].message == m && Removable(parts[p]) ==>
          exists i :: 0 <= i < |ds| && TargetOf(ds[i]) == Some(parts[p].key))
  }

  predicate RevokeIntent(t: Timer, chat: nat, d: Delivery) {
    && t.kind.Expire? && d.message == Some(t.message) && d.chat == chat && d.kind.MessageRevoke? && d.target.Some?
    && d.version == t.version
  }

  predicate OwnedTarget(parts: seq<Part>, m: nat, d: Delivery) {
    exists p :: 0 <= p < |parts| && parts[p].message == m && Some(parts[p].key) == TargetOf(d)
                && parts[p].owned && !parts[p].deleted && !parts[p].retired
  }

  function InsertRevokes(o: Options, db: Db, t: Timer, chat: nat, inbox: nat, ds: seq<Delivery>, now: int): Result<Db> {
    if ds == [] then Ok(db)
    else
      var before :- InsertRevokes(o, db, t, chat, inbox, ds[..|ds| - 1], now);
      var d := ds[|ds| - 1];
      if !RevokeIntent(t, chat, d) then Err(Invalid)
      else if !OwnedTarget(before.parts, t.message, d) then Err(Conflict)
      else InsertDelivery(o, before, inbox, d, Some(t.message), now)
  }

  /** The inbox row the message's first outbox row came from. */
  function OriginInbox(outbox: seq<OutboxRow>, m: nat): Option<nat> {
    var first := FirstIndex(outbox, (r: OutboxRow) => r.message == Some(m));
    if first.None? then None else Some(outbox[first.value].inbox)
  }

  function EmptyText(db: Db, m: nat): Db
    requires m < |db.messages|
  {
    db.(messages := db.messages[m := db.messages[m].(text := None)])
  }

  function FinishTimer(db: Db, id: nat): Db
    requires id < |db.timers|
  {
    db.(timers := db.timers[id := db.timers[id].(state := TimerDone, lease := None)])
  }

  /** The revokes of an expiry and the deletion they carry out, before the timer itself is finished. */
  ghost function ApplyTimer(o: Options, db: Db, t: Timer, ds: seq<Delivery>, now: int): Result<Db>
    requires HasRow(db.messages, t.message)
  {
    var m := t.message;
    if !Schedulable(db.messages[m], t.kind, t.version) then Err(Conflict)
    else if t.kind.Expire? && !Covers(db.parts, m, ds) then Err(Conflict)
    else if ds != [] && OriginInbox(db.outbox, m).None? then Err(Storage)
    else
      var inbox := if ds == [] then 0 else OriginInbox(db.outbox, m).value;
      var planned :- InsertRevokes(o, db, t, db.messages[m].chat, inbox, ds, now);
      if !HasRow(planned.messages, m) then Err(Storage)
      else Ok(if t.kind.Expire? then Entomb(EmptyText(planned, m), m) else planned)
  }

  ghost function CompleteTimer(o: Options, db: Db, id: int, token: nat, ds: seq<Delivery>, now: int, clocks: Clocks)
    : Result<Db>
  {
    if now == ZERO_TIME then Err(Invalid)
    else
      var t := Fence(now, clocks.first);
      if !LiveTimer(db, id, token, t) || !HasRow(db.messages, db.timers[id].message) then Err(LeaseLost)
      else
        var applied :- ApplyTimer(o, db, db.timers[id], ds, t);
        if LiveTimer(applied, id, token, Fence(t, clocks.second)) then Ok(FinishTimer(applied, id)) else Err(LeaseLost)
  }

  function SetKept(db: Db, ref: MessageRef, expected: SourceVersion, kept: bool): Result<Db> {
    if !ref.Valid() || !expected.Valid() then Err(Invalid)
    else
      var p := FindPart(db.parts, RefKey(ref));
      if p.None? || !HasRow(db.messages, db.parts[p.value].message) then Err(Conflict)
      else
        var m := db.parts[p.value].message;
        if db.messages[m].version != expected || db.messages[m].tombstone then Err(Conflict)
        else Ok(db.(messages := db.messages[m := db.messages[m].(kept := kept)]))
  }
}
