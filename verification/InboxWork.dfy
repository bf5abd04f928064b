/** Leasing and finishing admitted events: the inbox part of `internal/store/work.go`. */
module InboxWork {
  import opened Prelude
  import opened Database

  predicate ValidLease(now: int, ttl: int) {
    now != ZERO_TIME && 1 <= ttl <= HOUR
  }

  /** Two targets name the same logical message: equal, or parts of one message. */
  predicate Aliases(parts: seq<Part>, a: TargetKey, b: TargetKey) {
    a == b || exists p, q :: 0 <= p < |parts| && 0 <= q < |parts| && parts[p].message == parts[q].message
                             && RefTarget(parts[p].key) == a && RefTarget(parts[q].key) == b
  }

  predicate InboxEligible(db: Db, i: nat, now: int)
    requires i < |db.inbox|
  {
    && db.inbox[i].state == InboxPending && db.inbox[i].availableAt <= now
    && forall j :: 0 <= j < |db.inbox| && db.inbox[j].state == InboxLeased ==>
         !Aliases(db.parts, db.inbox[i].target, db.inbox[j].target)
  }

  function NextInbox(db: Db, now: int, from: nat := 0): (r: Option<nat>)
    requires from <= |db.inbox|
    ensures r.Some? ==> from <= r.value < |db.inbox| && InboxEligible(db, r.value, now)
    ensures r.Some? ==> forall j :: from <= j < r.value ==> !InboxEligible(db, j, now)
    ensures r.None? ==> forall j :: from <= j < |db.inbox| ==> !InboxEligible(db, j, now)
    decreases |db.inbox| - from
  {
    if from == |db.inbox| then None
    else if InboxEligible(db, from, now) then Some(from)
    else NextInbox(db, now, from + 1)
  }

  datatype Claim = Claim(db: Db, id: nat)

  function LeaseInbox(db: Db, i: nat, lease: Lease): Db
    requires i < |db.inbox|
  {
    db.(inbox := db.inbox[i := db.inbox[i].(state := InboxLeased, lease := Some(lease))])
  }

  function ClaimInbox(db: Db, token: nat, now: int, ttl: int, clock: int): Result<Claim> {
    if !ValidLease(now, ttl) then Err(Invalid)
    else
      var t := Fence(now, clock);
      var next := NextInbox(db, t);
      if next.None? then Err(NoWork)
      else Ok(Claim(LeaseInbox(db, next.value, Lease(token, t + ttl)), next.value))
  }

  predicate LiveInbox(db: Db, id: int, token: nat, now: int) {
    HasRow(db.inbox, id) && db.inbox[id].state == InboxLeased && HeldLease(db.inbox[id].lease, token, now)
  }

  function ReleaseInbox(db: Db, id: nat, state: InboxState, availableAt: int): Db
    requires id < |db.inbox|
  {
    db.(inbox := db.inbox[id := db.inbox[id].(state := state, availableAt := availableAt, lease := None)])
  }

  function DeferInbox(db: Db, id: int, token: nat, availableAt: int, now: int, clock: int): Result<Db> {
    if availableAt < now then Err(Invalid)
    else if !LiveInbox(db, id, token, Fence(now, clock)) then Err(LeaseLost)
    else Ok(ReleaseInbox(db, id, InboxPending, availableAt))
  }

  /** `QuarantineInbox` and `CompleteInbox` differ only in the final state. */
  function FinishInbox(db: Db, id: int, token: nat, state: InboxState, now: int, clock: int): Result<Db> {
    if now == ZERO_TIME then Err(Invalid)
    else if !LiveInbox(db, id, token, Fence(now, clock)) then Err(LeaseLost)
    else Ok(ReleaseInbox(db, id, state, db.inbox[id].availableAt))
  }
}
