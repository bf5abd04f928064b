/** Any number of delivery workers over one store, and the platform sends they make. */
module Workers {
  import opened Prelude
  import opened Database
  import opened Deliveries
  import opened Queues
  import opened Evolution
  import opened Steps
  import opened Provenance
  import opened QueueBounds
  import opened Runs

  /** Where a worker stands inside StepDelivery. */
  datatype Worker = Idle | Claimed(id: nat, token: nat) | Ready(id: nat, token: nat) | Sent(id: nat, token: nat)

  /** `sends` records every row handed to a platform port, in order. */
  datatype System = System(world: World, workers: map<nat, Worker>, sends: seq<nat>)

  /** One store or port call of worker `k`, its crash or return at any point, or a store call by anybody else. */
  datatype Move =
    | Elsewhere(s: Step)
    | Claim(k: nat, now: int, ttl: int, clock: int)
    | Begin(k: nat, now: int, clocks: Clocks)
    | Transmit(k: nat)
    | Leave(k: nat)

  function At(w: map<nat, Worker>, k: nat): Worker {
    if k in w then w[k] else Idle
  }

  /** The store call a move makes, if it makes one. */
  function StoreCall(y: System, move: Move): Option<Step> {
    match move
    case Elsewhere(s) => Some(s)
    case Claim(k, now, ttl, clock) => if At(y.workers, k).Idle? then Some(ClaimDeliveryStep(now, ttl, clock)) else None
    case Begin(k, now, clocks) =>
      var w := At(y.workers, k);
      if w.Claimed? then Some(BeginStep(w.id, w.token, now, clocks)) else None
    case _ => None
  }

  function NextWorker(y: System, move: Move, k: nat): Worker {
    var w, db := At(y.workers, k), y.world.db;
    match move
    case Claim(_, now, ttl, clock) =>
      var c := ClaimDelivery(db, |y.world.issued|, now, ttl, clock);
      if w.Idle? && c.Ok? then Claimed(c.value.id, |y.world.issued|) else w
    case Begin(_, now, clocks) =>
      if !w.Claimed? then w else if BeginSend(db, w.id, w.token, now, clocks).Ok? then Ready(w.id, w.token) else Idle
    case Transmit(_) => if w.Ready? then Sent(w.id, w.token) else w
    case Leave(_) => Idle
    case Elsewhere(_) => w
  }

  /**
   * A worker claims a row, begins the send, and only then hands the row to a port. Recording the outcome is a store call
   * like any other; it may happen late, twice or never.
   */
  ghost function Advance(o: Options, y: System, move: Move): System {
    var call := StoreCall(y, move);
    System(if call.Some? then Apply(o, y.world, call.value) else y.world,
           if move.Elsewhere? then y.workers else y.workers[move.k := NextWorker(y, move, move.k)],
           if move.Transmit? && At(y.workers, move.k).Ready? then y.sends + [At(y.workers, move.k).id] else y.sends)
  }

  ghost function RunSystem(o: Options, y: System, moves: seq<Move>): System
    decreases |moves|
  {
    if moves == [] then y else RunSystem(o, Advance(o, y, moves[0]), moves[1..])
  }

  /** Rows that a worker may transmit next were begun, belong to one worker, and have not been transmitted. */
  predicate ReadyOnce(outbox: seq<OutboxRow>, w: map<nat, Worker>, sends: seq<nat>) {
    && (forall k :: k in w && w[k].Ready? ==> Started(outbox, w[k].id) && w[k].id !in sends)
    && (forall k, l :: k in w && l in w && k != l && w[k].Ready? && w[l].Ready? ==> w[k].id != w[l].id)
  }

  predicate SentOnce(outbox: seq<OutboxRow>, sends: seq<nat>) {
    && (forall i :: 0 <= i < |sends| ==> Started(outbox, sends[i]))
    && (forall i, j :: 0 <= i < j < |sends| ==> sends[i] != sends[j])
  }

  predicate StaysStarted(a: seq<OutboxRow>, b: seq<OutboxRow>) {
    forall i: nat :: i < |a| && Started(a, i) ==> Started(b, i)
  }

  ghost predicate SystemSound(o: Options, y: System) {
    && Sound(o, y.world) && ReadyOnce(y.world.db.outbox, y.workers, y.sends) && SentOnce(y.world.db.outbox, y.sends)
  }

  lemma StepKeepsStarted(o: Options, w: World, s: Step)
    requires Sound(o, w)
    ensures Sound(o, Apply(o, w, s)) && StaysStarted(w.db.outbox, Apply(o, w, s).db.outbox)
  {
    StepKeepsSound(o, w, s);
    var v := Apply(o, w, s);
    forall i: nat | i < |w.db.outbox| && Started(w.db.outbox, i) ensures Started(v.db.outbox, i) {
      assert OutboxRowGrows(w.db.outbox[i], v.db.outbox[i]);
    }
  }

  /** A begun send is the first start of its row. */
  lemma BeginStarts(db: Db, id: int, token: nat, now: int, clocks: Clocks)
    requires LeaseShape(db) && BeginSend(db, id, token, now, clocks).Ok?
    ensures id >= 0 && !Started(db.outbox, id) && Started(BeginSend(db, id, token, now, clocks).value.outbox, id)
  {
    assert OutboxShape(db.outbox[id]);
  }

  lemma BeginCommits(o: Options, w: World, id: int, token: nat, now: int, clocks: Clocks)
    requires BeginSend(w.db, id, token, now, clocks).Ok?
    ensures Apply(o, w, BeginStep(id, token, now, clocks)).db == BeginSend(w.db, id, token, now, clocks).value
  {
  }

  lemma WorkerKeepsOnce(a: seq<OutboxRow>, b: seq<OutboxRow>, w: map<nat, Worker>, sends: seq<nat>, k: nat, x: Worker)
    requires ReadyOnce(a, w, sends) && SentOnce(a, sends) && StaysStarted(a, b)
    requires x.Ready? ==> At(w, k) == x || (!Started(a, x.id) && Started(b, x.id))
    ensures ReadyOnce(b, w, sends) && ReadyOnce(b, w[k := x], sends) && SentOnce(b, sends)
  {
  }

  lemma TransmitKeepsOnce(outbox: seq<OutboxRow>, w: map<nat, Worker>, sends: seq<nat>, k: nat)
    requires ReadyOnce(outbox, w, sends) && SentOnce(outbox, sends) && At(w, k).Ready?
    ensures var after := sends + [w[k].id];
      ReadyOnce(outbox, w[k := Sent(w[k].id, w[k].token)], after) && SentOnce(outbox, after)
  {
  }

  lemma OnlyBeginReadies(y: System, move: Move, k: nat)
    requires NextWorker(y, move, k).Ready? && NextWorker(y, move, k) != At(y.workers, k)
    ensures move.Begin? && At(y.workers, k).Claimed?
    ensures var w := At(y.workers, k);
      NextWorker(y, move, k) == Ready(w.id, w.token) && BeginSend(y.world.db, w.id, w.token, move.now, move.clocks).Ok?
  {
  }

  lemma ReadyIsFresh(o: Options, y: System, move: Move, k: nat)
    requires LeaseShape(y.world.db) && (move.Elsewhere? || k == move.k) && StoreCall(y, move).Some?
    ensures var x := NextWorker(y, move, k);
      x.Ready? && x != At(y.workers, k) ==>
        !Started(y.world.db.outbox, x.id) && Started(Apply(o, y.world, StoreCall(y, move).value).db.outbox, x.id)
  {
    if NextWorker(y, move, k).Ready? && NextWorker(y, move, k) != At(y.workers, k) {
      OnlyBeginReadies(y, move, k);
      var w := At(y.workers, k);
      BeginStarts(y.world.db, w.id, w.token, move.now, move.clocks);
      BeginCommits(o, y.world, w.id, w.token, move.now, move.clocks);
    }
  }

  lemma CallAdvances(o: Options, y: System, move: Move)
    requires StoreCall(y, move).Some?
    ensures var v := Apply(o, y.world, StoreCall(y, move).value);
      Advance(o, y, move)
      == System(v, if move.Elsewhere? then y.workers else y.workers[move.k := NextWorker(y, move, move.k)], y.sends)
  {
  }

  lemma WorkerKeepsSystem(o: Options, y: System, v: World, k: nat, x: Worker)
    requires SystemSound(o, y) && Sound(o, v) && StaysStarted(y.world.db.outbox, v.db.outbox)
    requires x.Ready? ==> At(y.workers, k) == x || (!Started(y.world.db.outbox, x.id) && Started(v.db.outbox, x.id))
    ensures SystemSound(o, System(v, y.workers, y.sends)) && SystemSound(o, System(v, y.workers[k := x], y.sends))
  {
    WorkerKeepsOnce(y.world.db.outbox, v.db.outbox, y.workers, y.sends, k, x);
  }

  lemma CallKeepsSystem(o: Options, y: System, move: Move)
    requires SystemSound(o, y) && StoreCall(y, move).Some?
    ensures SystemSound(o, Advance(o, y, move))
  {
    var s, k := StoreCall(y, move).value, if move.Elsewhere? then 0 else move.k;
    StepKeepsStarted(o, y.world, s);
    ReadyIsFresh(o, y, move, k);
    WorkerKeepsSystem(o, y, Apply(o, y.world, s), k, NextWorker(y, move, k));
    CallAdvances(o, y, move);
  }

  lemma MoveKeepsSystem(o: Options, y: System, move: Move)
    requires SystemSound(o, y)
    ensures SystemSound(o, Advance(o, y, move))
  {
    var outbox := y.world.db.outbox;
    if StoreCall(y, move).Some? {
      CallKeepsSystem(o, y, move);
    } else if move.Transmit? && At(y.workers, move.k).Ready? {
      TransmitKeepsOnce(outbox, y.workers, y.sends, move.k);
    } else {
      WorkerKeepsOnce(outbox, outbox, y.workers, y.sends, move.k, NextWorker(y, move, move.k));
    }
  }

  lemma {:induction false} RunKeepsSystem(o: Options, y: System, moves: seq<Move>)
    requires SystemSound(o, y)
    ensures SystemSound(o, RunSystem(o, y, moves))
    decreases |moves|
  {
    if moves != [] {
      MoveKeepsSystem(o, y, moves[0]);
      RunKeepsSystem(o, Advance(o, y, moves[0]), moves[1..]);
    }
  }

  /**
   * At-most-once transmission: with any number of workers, and whatever leases expire or workers crash, no outbox row is
   * handed to a platform port twice, and each one that was handed over had been begun before.
   */
  lemma TransmittedAtMostOnce(o: Options, moves: seq<Move>)
    requires ValidOptions(o)
    ensures var y := RunSystem(o, System(START, map[], []), moves);
      && Sound(o, y.world) && (forall i, j :: 0 <= i < j < |y.sends| ==> y.sends[i] != y.sends[j])
      && (forall i :: 0 <= i < |y.sends| ==> Started(y.world.db.outbox, y.sends[i]))
  {
    StartIsSound(o);
    RunKeepsSystem(o, System(START, map[], []), moves);
  }
}
