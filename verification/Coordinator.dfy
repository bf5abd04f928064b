/** The delivery step of the coordinator (`internal/coordinator/delivery.go`). */
module Coordinator {
  import opened Prelude
  import opened Domain
  import opened Database
  import opened Deliveries
  import opened Queues
  import opened Steps
  import opened Workers
  import opened BridgeStore
  import SendRules

  // ----- what a failure becomes

  /** An error of a port; any other error is treated as permanent. */
  datatype AdapterError = AdapterError(cause: ErrorClass, retryAfter: int, mayHaveApplied: bool)

  const UNCLASSIFIED := AdapterError(Permanent, 0, false)

  const NOT_CONNECTED := AdapterError(Transient, 0, false)

  datatype RetryConfig = RetryConfig(base: int, max: int)

  const SECOND := 1000

  /** What the platform asks for, or else the configured base, or else a second; never more than the cap. */
  function RetryDelay(e: AdapterError, cfg: RetryConfig): (delay: int)
    ensures delay > 0 && (cfg.max > 0 ==> delay <= cfg.max)
    ensures e.retryAfter > 0 ==> delay == e.retryAfter || delay == cfg.max < e.retryAfter
    ensures e.retryAfter <= 0 < cfg.base ==> delay == cfg.base || delay == cfg.max < cfg.base
    ensures e.retryAfter <= 0 && cfg.base <= 0 ==> delay == 1000 || delay == cfg.max < 1000
  {
    var wanted := if e.retryAfter > 0 then e.retryAfter else if cfg.base > 0 then cfg.base else SECOND;
    if cfg.max > 0 && wanted > cfg.max then cfg.max else wanted
  }

  /** Before the send began a passing error is retried; afterwards doubt stays doubt. */
  function HandleError(e: AdapterError, cfg: RetryConfig, started: bool, now: int): Decision {
    var passing := e.cause.Transient? || e.cause.RateLimited?;
    if !started then
      if passing then Decision(Pending, e.cause, now + RetryDelay(e, cfg))
      else Decision(if e.cause.Permission? then Blocked else Dead, e.cause, ZERO_TIME)
    else if passing || e.cause.UncertainClass? || e.mayHaveApplied then Decision(Uncertain, UncertainClass, ZERO_TIME)
    else Decision(if e.cause.Permission? then Blocked else Dead, e.cause, ZERO_TIME)
  }

  /**
   * What the coordinator decides about each error. The store records it exactly when the worker still holds its lease and
   * the error class is a known one: a decision never breaks the store's rules, and a begun send is never queued again.
   */
  lemma DecisionIsRecorded(db: Db, id: int, token: nat, e: AdapterError, cfg: RetryConfig, now: int, clocks: Clocks)
    requires LeaseShape(db) && now != ZERO_TIME && HasRow(db.outbox, id)
    ensures var started := db.outbox[id].startedAt.Some?;
      var d := HandleError(e, cfg, started, now);
      && (d.state == Pending <==> !started && (e.cause == Transient || e.cause == RateLimited))
      && (d.state == Uncertain <==>
            started && (e.cause == Transient || e.cause == RateLimited || e.cause == UncertainClass || e.mayHaveApplied))
      && (d.state == Blocked <==> e.cause == Permission && !(started && e.mayHaveApplied))
      && (d.state == Pending || d.state == Uncertain || d.state == Blocked || d.state == Dead)
      && d.cause == (if d.state == Uncertain then UncertainClass else e.cause)
      && d.availableAt == (if d.state == Pending then now + RetryDelay(e, cfg) else ZERO_TIME)
      && (FailDelivery(db, id, token, d, now, clocks).Ok? <==>
            !d.cause.OtherClass? && LiveDelivery(db, id, token, Fence(Fence(now, clocks.first), clocks.second)))
  {
    assert OutboxShape(db.outbox[id]);
  }

  // ----- one delivery step

  datatype SendOutcome = Delivered(parts: seq<DeliveredPart>, acceptedAt: int) | Failed(e: AdapterError)

  /** What the platforms answer during one step: whether WhatsApp is connected, and the outcome of the send. */
  datatype Port = Port(connected: bool, outcome: SendOutcome)

  /** The time and lease length of a step, and the clock readings of its store calls. */
  datatype Times = Times(now: int, ttl: int, claim: int, begin: Clocks, finish: Clocks)

  datatype StepResult = Done | Refused(error: Error) | PortFailed(e: AdapterError)

  /** What one step leaves behind: the database, the row handed to a port if any, and what the step reports. */
  datatype Attempt = Attempt(db: Db, sent: Option<nat>, r: StepResult)

  /** A create that reports no part is recorded as one primary part named by its send id, or else by its row. */
  function FallbackParts(d: Delivery, id: nat, tgChat: int): seq<DeliveredPart> {
    var telegram := d.platform == Telegram;
    var place := if telegram then Decimal(tgChat) else d.echoActor;
    var ref := MessageRef(d.platform, place, place, if d.sendId == "" then Decimal(id + 1) else d.sendId, "");
    [DeliveredPart(ref, 0, Primary, true, {CanDelete, CanRevoke, EditText}, d.generation, false, false)]
  }

  function CompletionOf(d: Delivery, id: nat, tgChat: int, sent: SendOutcome): Completion
    requires sent.Delivered?
  {
    Completion(if sent.parts == [] && d.kind.MessageCreate? then FallbackParts(d, id, tgChat) else sent.parts,
               sent.acceptedAt, d.version, if d.platform == WhatsApp && d.sendId != "" then [d.sendId] else [])
  }

  function FailAttempt(db: Db, id: nat, token: nat, e: AdapterError, cfg: RetryConfig, sent: Option<nat>, t: Times,
                       r: StepResult): Attempt
  {
    var failed := FailDelivery(db, id, token, HandleError(e, cfg, sent.Some?, t.now), t.now, t.finish);
    if failed.Ok? then Attempt(failed.value, sent, r) else Attempt(db, sent, Refused(failed.error))
  }

  function SendAttempt(o: Options, db: Db, id: nat, token: nat, d: Delivery, outcome: SendOutcome, cfg: RetryConfig,
                       tgChat: int, t: Times): Attempt
  {
    if outcome.Failed? then FailAttempt(db, id, token, outcome.e, cfg, Some(id), t, PortFailed(outcome.e))
    else
      var done := CompleteDelivery(o, db, id, token, CompletionOf(d, id, tgChat, outcome), t.now, t.finish);
      if done.Ok? then Attempt(done.value, Some(id), Done) else Attempt(db, Some(id), Refused(done.error))
  }

  predicate Unreachable(d: Delivery, port: Port) {
    d.platform == WhatsApp && !port.connected
  }

  /** The rest of a step once a row is claimed. */
  function ClaimedAttempt(o: Options, held: Db, id: nat, token: nat, d: Delivery, port: Port, cfg: RetryConfig, tgChat: int,
                          t: Times): Attempt
  {
    if Unreachable(d, port) then FailAttempt(held, id, token, NOT_CONNECTED, cfg, None, t, PortFailed(NOT_CONNECTED))
    else
      var begun := BeginSend(held, id, token, t.now, t.begin);
      if begun.Err? then FailAttempt(held, id, token, UNCLASSIFIED, cfg, None, t, Refused(begun.error))
      else SendAttempt(o, begun.value, id, token, d, port.outcome, cfg, tgChat, t)
  }

  function DeliveryAttempt(o: Options, db: Db, token: nat, port: Port, cfg: RetryConfig, tgChat: int, t: Times): Attempt {
    var c := ClaimDelivery(db, token, t.now, t.ttl, t.claim);
    if c.Err? then Attempt(db, None, Refused(c.error))
    else ClaimedAttempt(o, c.value.db, c.value.id, token, db.outbox[c.value.id].payload, port, cfg, tgChat, t)
  }

  // ----- what a step leaves behind

  /** The database with this outcome in row `id`, which nobody holds any more. */
  function Recorded(db: Db, id: nat, state: OutboxState, cause: ErrorClass, availableAt: int): Db
    requires id < |db.outbox|
  {
    var row := db.outbox[id].(state := state, errorClass := Some(cause), availableAt := availableAt, lease := None);
    db.(outbox := db.outbox[id := row])
  }

  predicate Passing(cause: ErrorClass) {
    cause == Transient || cause == RateLimited
  }

  /** The worker's lease lasts through the recording of the outcome. */
  ghost predicate HeldToEnd(db: Db, id: nat, token: nat, t: Times)
    requires id < |db.outbox|
  {
    && t.now != ZERO_TIME && (db.outbox[id].state == Leased || db.outbox[id].state == Sending)
    && SendRules.Held(db.outbox[id].lease, token, t.now, t.finish.first, t.finish.second)
  }

  /** Before a send began, a passing error waits for its retry, missing permission blocks the row, any other error ends it. */
  lemma UnsentFailure(db: Db, id: nat, token: nat, e: AdapterError, cfg: RetryConfig, t: Times, r: StepResult)
    requires id < |db.outbox| && db.outbox[id].startedAt.None? && HeldToEnd(db, id, token, t)
    ensures var a := FailAttempt(db, id, token, e, cfg, None, t, r);
      && (Passing(e.cause) ==>
            a == Attempt(Recorded(db, id, Pending, e.cause, t.now + RetryDelay(e, cfg)), None, r))
      && (e.cause == Permission ==> a == Attempt(Recorded(db, id, Blocked, Permission, ZERO_TIME), None, r))
      && (e.cause == Permanent || e.cause == ConflictClass || e.cause == UncertainClass ==>
            a == Attempt(Recorded(db, id, Dead, e.cause, ZERO_TIME), None, r))
      && (e.cause.OtherClass? ==> a == Attempt(db, None, Refused(Invalid)))
  {
  }

  /**
   * Once a send has begun nothing is retried: an error after which the send may have happened leaves the row in doubt,
   * missing permission blocks it, any other error ends it.
   */
  lemma SentFailure(db: Db, id: nat, token: nat, e: AdapterError, cfg: RetryConfig, t: Times, r: StepResult)
    requires id < |db.outbox| && db.outbox[id].startedAt.Some? && HeldToEnd(db, id, token, t)
    ensures var a := FailAttempt(db, id, token, e, cfg, Some(id), t, r);
      if Passing(e.cause) || e.cause == UncertainClass || e.mayHaveApplied
      then a == Attempt(Recorded(db, id, Uncertain, UncertainClass, ZERO_TIME), Some(id), r)
      else
        && (e.cause == Permission ==> a == Attempt(Recorded(db, id, Blocked, Permission, ZERO_TIME), Some(id), r))
        && (e.cause == Permanent || e.cause == ConflictClass ==>
              a == Attempt(Recorded(db, id, Dead, e.cause, ZERO_TIME), Some(id), r))
        && (e.cause.OtherClass? ==> a == Attempt(db, Some(id), Refused(Invalid)))
  {
  }

  /** Once the lease is lost, a failure is not recorded. */
  lemma LateFailure(db: Db, id: nat, token: nat, e: AdapterError, cfg: RetryConfig, sent: Option<nat>, t: Times, r: StepResult)
    requires id < |db.outbox| && !HeldToEnd(db, id, token, t)
    ensures var a := FailAttempt(db, id, token, e, cfg, sent, t, r); a.db == db && a.sent == sent && a.r.Refused?
  {
    SendRules.FailsExactlyWhen(db, id, token, HandleError(e, cfg, sent.Some?, t.now), t.now, t.finish);
  }

  /** The row the step works on, as its claim leaves it. */
  function Taken(db: Db, id: nat, token: nat, t: Times): Db
    requires id < |db.outbox|
  {
    var until := (if t.claim > t.now then t.claim else t.now) + t.ttl;
    db.(outbox := db.outbox[id := db.outbox[id].(state := Leased, lease := Some(Lease(token, until)))])
  }

  /** The step claims row `id`. */
  ghost predicate Takes(db: Db, id: nat, token: nat, t: Times) {
    var c := ClaimDelivery(db, token, t.now, t.ttl, t.claim);
    c.Ok? && c.value.id == id
  }

  lemma TakenRow(db: Db, id: nat, token: nat, t: Times)
    requires LeaseShape(db) && Takes(db, id, token, t)
    ensures id < |db.outbox| && db.outbox[id].startedAt.None?
    ensures ClaimDelivery(db, token, t.now, t.ttl, t.claim).value.db == Taken(db, id, token, t)
  {
    SendRules.ClaimTakesLeast(db, token, t.now, t.ttl, t.claim);
    assert OutboxShape(db.outbox[id]);
  }

  lemma RecordedTaken(db: Db, id: nat, token: nat, t: Times, state: OutboxState, cause: ErrorClass, availableAt: int)
    requires id < |db.outbox|
    ensures Recorded(Taken(db, id, token, t), id, state, cause, availableAt) == Recorded(db, id, state, cause, availableAt)
  {
    assert Recorded(Taken(db, id, token, t), id, state, cause, availableAt).outbox
        == Recorded(db, id, state, cause, availableAt).outbox;
  }

  /**
   * A completion says what the platform reported, under the version of the intent and its own send id. A create whose send
   * reports no part is recorded as one part of the bridge's own, named by the send id or else by the row.
   */
  lemma CompletionReports(d: Delivery, id: nat, tgChat: int, sent: SendOutcome)
    requires sent.Delivered?
    ensures var c := CompletionOf(d, id, tgChat, sent);
      && c.version == d.version && c.acceptedAt == sent.acceptedAt
      && c.echoKeys == (if d.platform == WhatsApp && d.sendId != "" then [d.sendId] else [])
      && (sent.parts != [] || d.kind != MessageCreate ==> c.parts == sent.parts)
      && (sent.parts == [] && d.kind == MessageCreate ==>
            && |c.parts| == 1 && c.parts[0].ref.platform == d.platform && c.parts[0].ref.author == c.parts[0].ref.chat
            && c.parts[0].ref.chat == (if d.platform == WhatsApp then d.echoActor else Decimal(tgChat))
            && c.parts[0].ref.id == (if d.sendId != "" then d.sendId else Decimal(id + 1))
            && c.parts[0].index == 0 && c.parts[0].role == Primary && c.parts[0].owned && !c.parts[0].deleted
            && !c.parts[0].retired && c.parts[0].generation == d.generation
            && c.parts[0].caps == {EditText, CanDelete, CanRevoke})
  {
  }

  /** What a failed send becomes: in doubt if it may have happened, otherwise blocked or dead; it never waits again. */
  ghost predicate SentFailed(begun: Db, id: nat, e: AdapterError, a: Attempt)
    requires id < |begun.outbox|
  {
    if e.cause == Transient || e.cause == RateLimited || e.cause == UncertainClass || e.mayHaveApplied
    then a == Attempt(Recorded(begun, id, Uncertain, UncertainClass, ZERO_TIME), Some(id), PortFailed(e))
    else if e.cause == Permission
    then a == Attempt(Recorded(begun, id, Blocked, Permission, ZERO_TIME), Some(id), PortFailed(e))
    else if e.cause.OtherClass? then a == Attempt(begun, Some(id), Refused(Invalid))
    else a == Attempt(Recorded(begun, id, Dead, e.cause, ZERO_TIME), Some(id), PortFailed(e))
  }

  /** What becomes of a row whose send has begun. */
  ghost predicate SentLeft(o: Options, begun: Db, id: nat, token: nat, d: Delivery, outcome: SendOutcome, tgChat: int,
                           t: Times, a: Attempt)
    requires id < |begun.outbox|
  {
    if outcome.Delivered? then
      var done := CompleteDelivery(o, begun, id, token, CompletionOf(d, id, tgChat, outcome), t.now, t.finish);
      a == if done.Ok? then Attempt(done.value, Some(id), Done) else Attempt(begun, Some(id), Refused(done.error))
    else if HeldToEnd(begun, id, token, t) then SentFailed(begun, id, outcome.e, a)
    else a.db == begun && a.sent == Some(id) && a.r.Refused?
  }

  /**
   * What becomes of the claimed row. During a WhatsApp outage it is put back unsent and waits, so that an outage loses no
   * row; a row the send boundary refuses is dead and never handed to a platform; a row whose lease is lost is left alone.
   */
  ghost predicate RowLeft(o: Options, db: Db, id: nat, token: nat, port: Port, cfg: RetryConfig, tgChat: int, t: Times,
                          a: Attempt)
    requires id < |db.outbox|
  {
    var held, d, e := Taken(db, id, token, t), db.outbox[id].payload, AdapterError(Transient, 0, false);
    var begun := BeginSend(held, id, token, t.now, t.begin);
    var outage := d.platform == WhatsApp && !port.connected;
    if (outage || begun.Err?) && !HeldToEnd(held, id, token, t) then a.db == held && a.sent == None && a.r.Refused?
    else if outage
    then a == Attempt(Recorded(db, id, Pending, Transient, t.now + RetryDelay(e, cfg)), None, PortFailed(e))
    else if begun.Err? then a == Attempt(Recorded(db, id, Dead, Permanent, ZERO_TIME), None, Refused(begun.error))
    else id < |begun.value.outbox| && SentLeft(o, begun.value, id, token, d, port.outcome, tgChat, t, a)
  }

  /** Everything a step leaves behind: nothing without a row to claim, and otherwise what becomes of that row. */
  ghost predicate StepLeaves(o: Options, db: Db, token: nat, port: Port, cfg: RetryConfig, tgChat: int, t: Times, a: Attempt) {
    && (forall id: nat :: Takes(db, id, token, t) ==>
          id < |db.outbox| && RowLeft(o, db, id, token, port, cfg, tgChat, t, a))
    && ((forall id: nat :: !Takes(db, id, token, t)) ==>
          a == Attempt(db, None, Refused(if t.now == ZERO_TIME || t.ttl < 1 || t.ttl > 3600000 then Invalid else NoWork)))
  }

  lemma UnsentLeaves(o: Options, db: Db, id: nat, token: nat, port: Port, cfg: RetryConfig, tgChat: int, t: Times)
    requires LeaseShape(db) && Takes(db, id, token, t) && id < |db.outbox|
    requires Unreachable(db.outbox[id].payload, port) || BeginSend(Taken(db, id, token, t), id, token, t.now, t.begin).Err?
    ensures RowLeft(o, db, id, token, port, cfg, tgChat, t, DeliveryAttempt(o, db, token, port, cfg, tgChat, t))
  {
    var held := Taken(db, id, token, t);
    TakenRow(db, id, token, t);
    var outage := Unreachable(db.outbox[id].payload, port);
    var e := if outage then NOT_CONNECTED else UNCLASSIFIED;
    var r := if outage then PortFailed(e) else Refused(BeginSend(held, id, token, t.now, t.begin).error);
    if HeldToEnd(held, id, token, t) {
      UnsentFailure(held, id, token, e, cfg, t, r);
      RecordedTaken(db, id, token, t, Pending, Transient, t.now + RetryDelay(e, cfg));
      RecordedTaken(db, id, token, t, Dead, Permanent, ZERO_TIME);
    } else {
      LateFailure(held, id, token, e, cfg, None, t, r);
    }
  }

  lemma SendLeaves(o: Options, begun: Db, id: nat, token: nat, d: Delivery, outcome: SendOutcome, cfg: RetryConfig,
                   tgChat: int, t: Times)
    requires id < |begun.outbox| && begun.outbox[id].startedAt.Some?
    ensures SentLeft(o, begun, id, token, d, outcome, tgChat, t, SendAttempt(o, begun, id, token, d, outcome, cfg, tgChat, t))
  {
    if outcome.Failed? {
      if HeldToEnd(begun, id, token, t) {
        SentFailure(begun, id, token, outcome.e, cfg, t, PortFailed(outcome.e));
      } else {
        LateFailure(begun, id, token, outcome.e, cfg, Some(id), t, PortFailed(outcome.e));
      }
    }
  }

  lemma RowIsLeft(o: Options, db: Db, id: nat, token: nat, port: Port, cfg: RetryConfig, tgChat: int, t: Times)
    requires LeaseShape(db) && Takes(db, id, token, t)
    ensures id < |db.outbox|
    ensures RowLeft(o, db, id, token, port, cfg, tgChat, t, DeliveryAttempt(o, db, token, port, cfg, tgChat, t))
  {
    TakenRow(db, id, token, t);
    var begun := BeginSend(Taken(db, id, token, t), id, token, t.now, t.begin);
    if Unreachable(db.outbox[id].payload, port) || begun.Err? {
      UnsentLeaves(o, db, id, token, port, cfg, tgChat, t);
    } else {
      SendLeaves(o, begun.value, id, token, db.outbox[id].payload, port.outcome, cfg, tgChat, t);
    }
  }

  /** One step, for every combination of claim, connection, begin and outcome. */
  lemma AttemptLeaves(o: Options, db: Db, token: nat, port: Port, cfg: RetryConfig, tgChat: int, t: Times)
    requires LeaseShape(db)
    ensures StepLeaves(o, db, token, port, cfg, tgChat, t, DeliveryAttempt(o, db, token, port, cfg, tgChat, t))
  {
    forall id: nat | Takes(db, id, token, t)
      ensures id < |db.outbox|
              && RowLeft(o, db, id, token, port, cfg, tgChat, t, DeliveryAttempt(o, db, token, port, cfg, tgChat, t))
    {
      RowIsLeft(o, db, id, token, port, cfg, tgChat, t);
    }
    var c := ClaimDelivery(db, token, t.now, t.ttl, t.claim);
    if c.Ok? {
      assert Takes(db, c.value.id, token, t);
    }
  }

  // ----- the methods

  method RecordFailure(store: Store, id: nat, token: nat, e: AdapterError, cfg: RetryConfig, sent: Option<nat>, t: Times,
                       cause: StepResult) returns (r: StepResult)
    modifies store`db
    ensures var a := FailAttempt(old(store.db), id, token, e, cfg, sent, t, cause); store.db == a.db && r == a.r
  {
    var failed := store.FailDelivery(id, token, HandleError(e, cfg, sent.Some?, t.now), t.now, t.finish);
    r := if failed.Ok? then cause else Refused(failed.error);
  }

  /** One pass of a delivery worker. `sent` is the row whose port send was called, if the step got that far. */
  method StepDelivery(store: Store, port: Port, cfg: RetryConfig, tgChat: int, t: Times)
    returns (r: StepResult, sent: Option<nat>)
    modifies store
    ensures var a := DeliveryAttempt(store.options, old(store.db), old(store.tokens), port, cfg, tgChat, t);
      store.db == a.db && sent == a.sent && r == a.r
    ensures LeaseShape(old(store.db)) ==>
              StepLeaves(store.options, old(store.db), old(store.tokens), port, cfg, tgChat, t, Attempt(store.db, sent, r))
  {
    sent := None;
    ghost var shaped := LeaseShape(store.db);
    if shaped {
      AttemptLeaves(store.options, store.db, store.tokens, port, cfg, tgChat, t);
    }
    var claimed := store.ClaimDelivery(t.now, t.ttl, t.claim);
    if claimed.Err? {
      return Refused(claimed.error), None;
    }
    var id, token, d := claimed.value.id, claimed.value.token, claimed.value.d;
    if Unreachable(d, port) {
      r := RecordFailure(store, id, token, NOT_CONNECTED, cfg, None, t, PortFailed(NOT_CONNECTED));
      return;
    }
    var begun := store.BeginSend(id, token, t.now, t.begin);
    if begun.Err? {
      r := RecordFailure(store, id, token, UNCLASSIFIED, cfg, None, t, Refused(begun.error));
      return;
    }
    sent := Some(id);
    if port.outcome.Failed? {
      r := RecordFailure(store, id, token, port.outcome.e, cfg, sent, t, PortFailed(port.outcome.e));
      return;
    }
    var done := store.CompleteDelivery(id, token, CompletionOf(d, id, tgChat, port.outcome), t.now, t.finish);
    r := if done.Ok? then Done else Refused(done.error);
  }

  /** What worker `k` and the store have come to. */
  datatype View = View(db: Db, worker: Worker, sends: seq<nat>)

  function ViewOf(y: System, k: nat): View {
    View(y.world.db, At(y.workers, k), y.sends)
  }

  lemma ClaimView(o: Options, y: System, k: nat, t: Times)
    requires At(y.workers, k).Idle?
    ensures var c := ClaimDelivery(y.world.db, |y.world.issued|, t.now, t.ttl, t.claim);
      ViewOf(Advance(o, y, Claim(k, t.now, t.ttl, t.claim)), k)
      == if c.Ok? then View(c.value.db, Claimed(c.value.id, |y.world.issued|), y.sends) else ViewOf(y, k)
  {
  }

  lemma BeginView(o: Options, y: System, k: nat, id: nat, token: nat, t: Times)
    requires At(y.workers, k) == Claimed(id, token)
    ensures var b := BeginSend(y.world.db, id, token, t.now, t.begin);
      ViewOf(Advance(o, y, Begin(k, t.now, t.begin)), k)
      == if b.Ok? then View(b.value, Ready(id, token), y.sends) else View(y.world.db, Idle, y.sends)
  {
  }

  lemma TransmitView(o: Options, y: System, k: nat, id: nat, token: nat)
    requires At(y.workers, k) == Ready(id, token)
    ensures ViewOf(Advance(o, y, Transmit(k)), k) == View(y.world.db, Sent(id, token), y.sends + [id])
  {
  }

  /** The worker records the outcome of its row and is free again. */
  lemma SettleView(o: Options, y: System, k: nat, s: Step)
    requires s.FailStep? || s.CompleteStep?
    ensures var z := Advance(o, Advance(o, y, Elsewhere(s)), Leave(k));
      ViewOf(z, k) == View(After(o, y.world.db, |y.world.issued|, s), Idle, y.sends)
  {
  }

  function FailMove(id: nat, token: nat, e: AdapterError, cfg: RetryConfig, started: bool, t: Times): (m: Move)
    ensures m.Elsewhere?
  {
    Elsewhere(FailStep(id, token, HandleError(e, cfg, started, t.now), t.now, t.finish))
  }

  lemma FailAfter(o: Options, db: Db, issued: nat, id: nat, token: nat, e: AdapterError, cfg: RetryConfig,
                  sent: Option<nat>, t: Times, r: StepResult)
    ensures FailMove(id, token, e, cfg, sent.Some?, t).s.FailStep?
    ensures After(o, db, issued, FailMove(id, token, e, cfg, sent.Some?, t).s)
            == FailAttempt(db, id, token, e, cfg, sent, t, r).db
  {
  }

  lemma CompleteAfter(o: Options, db: Db, issued: nat, id: nat, token: nat, c: Completion, t: Times)
    ensures var done := CompleteDelivery(o, db, id, token, c, t.now, t.finish);
      After(o, db, issued, CompleteStep(id, token, c, t.now, t.finish)) == if done.Ok? then done.value else db
  {
  }

  ghost predicate Realizes(o: Options, y: System, moves: seq<Move>, k: nat, a: Attempt) {
    ViewOf(RunSystem(o, y, moves), k) == View(a.db, Idle, y.sends + if a.sent.Some? then [a.sent.value] else [])
  }

  function OutcomeMove(id: nat, token: nat, d: Delivery, outcome: SendOutcome, cfg: RetryConfig, tgChat: int, t: Times): Move {
    if outcome.Failed? then FailMove(id, token, outcome.e, cfg, true, t)
    else Elsewhere(CompleteStep(id, token, CompletionOf(d, id, tgChat, outcome), t.now, t.finish))
  }

  function ClaimedMoves(held: Db, id: nat, token: nat, d: Delivery, port: Port, cfg: RetryConfig, tgChat: int, t: Times,
                        k: nat): (moves: seq<Move>)
  {
    if Unreachable(d, port) then [FailMove(id, token, NOT_CONNECTED, cfg, false, t), Leave(k)]
    else
      [Begin(k, t.now, t.begin)]
      + if BeginSend(held, id, token, t.now, t.begin).Err?
        then [FailMove(id, token, UNCLASSIFIED, cfg, false, t), Leave(k)]
        else [Transmit(k), OutcomeMove(id, token, d, port.outcome, cfg, tgChat, t), Leave(k)]
  }

  /** The moves of worker `k` that make up one step. */
  function AttemptMoves(o: Options, db: Db, token: nat, port: Port, cfg: RetryConfig, tgChat: int, t: Times, k: nat)
    : (moves: seq<Move>)
  {
    var c := ClaimDelivery(db, token, t.now, t.ttl, t.claim);
    [Claim(k, t.now, t.ttl, t.claim)]
    + if c.Err? then []
      else ClaimedMoves(c.value.db, c.value.id, token, db.outbox[c.value.id].payload, port, cfg, tgChat, t, k)
  }

  lemma RunFirst(o: Options, y: System, m: Move, rest: seq<Move>)
    ensures RunSystem(o, y, [m] + rest) == RunSystem(o, Advance(o, y, m), rest)
  {
    assert ([m] + rest)[1..] == rest;
  }

  lemma RunTwo(o: Options, y: System, m: Move, n: Move)
    ensures RunSystem(o, y, [m, n]) == Advance(o, Advance(o, y, m), n)
  {
    RunFirst(o, y, m, [n]);
    RunFirst(o, Advance(o, y, m), n, []);
    assert [m] + [n] == [m, n] && [n] + [] == [n];
  }

  lemma FailIsMoves(o: Options, y: System, k: nat, id: nat, token: nat, e: AdapterError, cfg: RetryConfig, sent: Option<nat>,
                    t: Times, r: StepResult)
    ensures ViewOf(RunSystem(o, y, [FailMove(id, token, e, cfg, sent.Some?, t), Leave(k)]), k)
            == View(FailAttempt(y.world.db, id, token, e, cfg, sent, t, r).db, Idle, y.sends)
  {
    var m := FailMove(id, token, e, cfg, sent.Some?, t);
    RunTwo(o, y, m, Leave(k));
    FailAfter(o, y.world.db, |y.world.issued|, id, token, e, cfg, sent, t, r);
    SettleView(o, y, k, m.s);
  }

  lemma OutcomeIsMoves(o: Options, y: System, k: nat, id: nat, token: nat, d: Delivery, outcome: SendOutcome,
                       cfg: RetryConfig, tgChat: int, t: Times)
    ensures ViewOf(RunSystem(o, y, [OutcomeMove(id, token, d, outcome, cfg, tgChat, t), Leave(k)]), k)
            == View(SendAttempt(o, y.world.db, id, token, d, outcome, cfg, tgChat, t).db, Idle, y.sends)
  {
    var m := OutcomeMove(id, token, d, outcome, cfg, tgChat, t);
    if outcome.Failed? {
      FailIsMoves(o, y, k, id, token, outcome.e, cfg, Some(id), t, PortFailed(outcome.e));
    } else {
      RunTwo(o, y, m, Leave(k));
      SettleView(o, y, k, m.s);
      CompleteAfter(o, y.world.db, |y.world.issued|, id, token, CompletionOf(d, id, tgChat, outcome), t);
    }
  }

  lemma SentOnlyByOutcome(o: Options, db: Db, id: nat, token: nat, d: Delivery, outcome: SendOutcome, cfg: RetryConfig,
                          tgChat: int, t: Times)
    ensures SendAttempt(o, db, id, token, d, outcome, cfg, tgChat, t).sent == Some(id)
  {
  }

  lemma BegunIsMoves(o: Options, y: System, k: nat, id: nat, token: nat, d: Delivery, port: Port, cfg: RetryConfig,
                     tgChat: int, t: Times)
    requires At(y.workers, k) == Claimed(id, token) && !Unreachable(d, port)
    ensures Realizes(o, y, ClaimedMoves(y.world.db, id, token, d, port, cfg, tgChat, t, k), k,
                     ClaimedAttempt(o, y.world.db, id, token, d, port, cfg, tgChat, t))
  {
    var begin := Begin(k, t.now, t.begin);
    var begun := BeginSend(y.world.db, id, token, t.now, t.begin);
    var z := Advance(o, y, begin);
    BeginView(o, y, k, id, token, t);
    if begun.Err? {
      RunFirst(o, y, begin, [FailMove(id, token, UNCLASSIFIED, cfg, false, t), Leave(k)]);
      FailIsMoves(o, z, k, id, token, UNCLASSIFIED, cfg, None, t, Refused(begun.error));
    } else {
      var last := [OutcomeMove(id, token, d, port.outcome, cfg, tgChat, t), Leave(k)];
      RunFirst(o, y, begin, [Transmit(k)] + last);
      RunFirst(o, z, Transmit(k), last);
      TransmitView(o, z, k, id, token);
      OutcomeIsMoves(o, Advance(o, z, Transmit(k)), k, id, token, d, port.outcome, cfg, tgChat, t);
      SentOnlyByOutcome(o, begun.value, id, token, d, port.outcome, cfg, tgChat, t);
      assert [Transmit(k)] + last
          == [Transmit(k), OutcomeMove(id, token, d, port.outcome, cfg, tgChat, t), Leave(k)];
    }
  }

  lemma ClaimedIsMoves(o: Options, y: System, k: nat, id: nat, token: nat, d: Delivery, port: Port, cfg: RetryConfig,
                       tgChat: int, t: Times)
    requires At(y.workers, k) == Claimed(id, token)
    ensures Realizes(o, y, ClaimedMoves(y.world.db, id, token, d, port, cfg, tgChat, t, k), k,
                     ClaimedAttempt(o, y.world.db, id, token, d, port, cfg, tgChat, t))
  {
    if Unreachable(d, port) {
      FailIsMoves(o, y, k, id, token, NOT_CONNECTED, cfg, None, t, PortFailed(NOT_CONNECTED));
    } else {
      BegunIsMoves(o, y, k, id, token, d, port, cfg, tgChat, t);
    }
  }

  /** A step is a run of one worker's moves, so what holds for any number of workers holds for StepDelivery. */
  lemma StepIsMoves(o: Options, y: System, port: Port, cfg: RetryConfig, tgChat: int, t: Times, k: nat)
    requires At(y.workers, k).Idle?
    ensures var token := |y.world.issued|;
      Realizes(o, y, AttemptMoves(o, y.world.db, token, port, cfg, tgChat, t, k), k,
               DeliveryAttempt(o, y.world.db, token, port, cfg, tgChat, t))
  {
    var db, token := y.world.db, |y.world.issued|;
    var claim := Claim(k, t.now, t.ttl, t.claim);
    var c := ClaimDelivery(db, token, t.now, t.ttl, t.claim);
    ClaimView(o, y, k, t);
    if c.Err? {
      RunFirst(o, y, claim, []);
    } else {
      var d := db.outbox[c.value.id].payload;
      RunFirst(o, y, claim, ClaimedMoves(c.value.db, c.value.id, token, d, port, cfg, tgChat, t, k));
      ClaimedIsMoves(o, Advance(o, y, claim), k, c.value.id, token, d, port, cfg, tgChat, t);
    }
  }
}
