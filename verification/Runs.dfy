/**
 * Whole runs of the store: any number of workers issue any calls in any order, with expired leases, crashes between
 * calls and restarts. A run is a sequence of steps; the world adds to the database what only an observer sees, namely
 * who drew each fencing token and when, which sends were begun and which events were planned.
 */
module Runs {
  import opened Prelude
  import opened Domain
  import opened Database
  import opened Admission
  import opened InboxWork
  import opened Planning
  import opened Deliveries
  import opened Timers
  import opened Queues
  import opened QuietTransactions
  import opened Evolution
  import opened Steps
  import opened Integrity
  import opened Keys
  import opened Deletion
  import opened Provenance
  import opened TopicSafety
  import opened TimerSafety
  import opened QueueBounds

  /** The row a token was drawn for. */
  datatype Holder = Nobody | InboxHolder(row: nat) | OutboxHolder(row: nat) | TimerHolder(row: nat)

  /** A committed BeginSend: from here on a worker may transmit. */
  datatype Begun = Begun(row: nat, message: Option<nat>, kind: Kind, version: SourceVersion)

  /** `issued` and `issuedAt` have an entry for each token: the row it was drawn for and the fenced time of the claim. */
  datatype World = World(db: Db, issued: seq<Holder>, issuedAt: seq<int>, begun: seq<Begun>, planned: seq<int>)

  const START: World := World(EMPTY, [], [], [], [])

  function ClaimedRow(db: Db, token: nat, s: Step): Holder
    requires ClaimStep(s)
  {
    match s
    case ClaimInboxStep(now, ttl, clock) =>
      var c := ClaimInbox(db, token, now, ttl, clock);
      if c.Ok? then InboxHolder(c.value.id) else Nobody
    case ClaimDeliveryStep(now, ttl, clock) =>
      var c := ClaimDelivery(db, token, now, ttl, clock);
      if c.Ok? then OutboxHolder(c.value.id) else Nobody
    case ClaimTimerStep(now, ttl, clock) =>
      var c := ClaimTimer(db, token, now, ttl, clock);
      if c.Ok? && c.value.id.Some? then TimerHolder(c.value.id.value) else Nobody
  }

  function BegunRow(db: Db, id: nat): Begun
    requires id < |db.outbox|
  {
    var r := db.outbox[id];
    Begun(id, r.message, r.operation, r.payload.version)
  }

  ghost function Apply(o: Options, w: World, s: Step): World {
    var ok := Outcome(o, w.db, |w.issued|, s).Ok?;
    World(After(o, w.db, |w.issued|, s),
          if ClaimStep(s) then w.issued + [ClaimedRow(w.db, |w.issued|, s)] else w.issued,
          if ClaimStep(s) then w.issuedAt + [Fence(s.now, s.clock)] else w.issuedAt,
          if ok && s.BeginStep? then w.begun + [BegunRow(w.db, s.id)] else w.begun,
          if ok && s.PlanStep? then w.planned + [s.id] else w.planned)
  }

  ghost function Execute(o: Options, w: World, steps: seq<Step>): World {
    if steps == [] then w else Apply(o, Execute(o, w, steps[..|steps| - 1]), steps[|steps| - 1])
  }

  // ----- fencing tokens

  /** The lease a row holds now, if it is a row at all. */
  function LeaseOf(db: Db, h: Holder): Option<Lease> {
    match h
    case Nobody => None
    case InboxHolder(i) => if i < |db.inbox| then db.inbox[i].lease else None
    case OutboxHolder(i) => if i < |db.outbox| then db.outbox[i].lease else None
    case TimerHolder(i) => if i < |db.timers| then db.timers[i].lease else None
  }

  /** Every held token was issued to exactly the row that holds it. */
  ghost predicate TokensOwned(w: World) {
    forall h: Holder :: LeaseOf(w.db, h).Some? ==>
      var t := LeaseOf(w.db, h).value.token; t < |w.issued| && w.issued[t] == h
  }

  lemma QuietLeaseChange(a: Db, b: Db, h: Holder)
    requires Quiet(a, b) && LeaseOf(b, h).Some?
    ensures LeaseOf(b, h) == LeaseOf(a, h)
  {
    match h
    case InboxHolder(i) => assert i < |a.inbox| ==> QuietInboxRow(a.inbox[i], b.inbox[i]);
    case OutboxHolder(i) => assert i < |a.outbox| ==> QuietRow(a.outbox[i], b.outbox[i]);
    case TimerHolder(i) => assert i < |a.timers| ==> QuietTimer(a.timers[i], b.timers[i]);
    case Nobody =>
  }

  lemma TimerClaimLeaseChange(db: Db, token: nat, now: int, ttl: int, clock: int, h: Holder)
    requires LeaseShape(db) && ClaimTimer(db, token, now, ttl, clock).Ok?
    requires LeaseOf(ClaimTimer(db, token, now, ttl, clock).value.db, h).Some?
    ensures var c := ClaimTimer(db, token, now, ttl, clock).value;
      LeaseOf(c.db, h) == LeaseOf(db, h)
      || (c.id.Some? && h == TimerHolder(c.id.value) && LeaseOf(c.db, h).value.token == token)
  {
    var kept := CancelObsolete(db);
    CancelQuiet(db);
    if LeaseOf(kept, h).Some? {
      QuietLeaseChange(db, kept, h);
    }
  }

  lemma ClaimLeaseChange(o: Options, db: Db, token: nat, s: Step, h: Holder)
    requires LeaseShape(db) && ClaimStep(s) && Outcome(o, db, token, s).Ok?
    requires LeaseOf(After(o, db, token, s), h).Some?
    ensures LeaseOf(After(o, db, token, s), h) == LeaseOf(db, h)
            || (ClaimedRow(db, token, s) == h && LeaseOf(After(o, db, token, s), h).value.token == token)
  {
    if s.ClaimTimerStep? {
      TimerClaimLeaseChange(db, token, s.now, s.ttl, s.clock, h);
    }
  }

  /** A step keeps a lease, drops it, or hands the fresh token to the row it claims. */
  lemma LeaseChange(o: Options, db: Db, token: nat, s: Step, h: Holder)
    requires LeaseShape(db) && LeaseOf(After(o, db, token, s), h).Some?
    ensures LeaseOf(After(o, db, token, s), h) == LeaseOf(db, h)
            || (ClaimStep(s) && ClaimedRow(db, token, s) == h && LeaseOf(After(o, db, token, s), h).value.token == token)
  {
    if Outcome(o, db, token, s).Ok? {
      if ClaimStep(s) {
        ClaimLeaseChange(o, db, token, s, h);
      } else {
        StepIsQuiet(o, db, token, s);
        QuietLeaseChange(db, After(o, db, token, s), h);
      }
    }
  }

  lemma StepKeepsTokens(o: Options, w: World, s: Step)
    requires LeaseShape(w.db) && TokensOwned(w)
    ensures TokensOwned(Apply(o, w, s))
  {
    var v := Apply(o, w, s);
    forall h: Holder | LeaseOf(v.db, h).Some?
      ensures LeaseOf(v.db, h).value.token < |v.issued| && v.issued[LeaseOf(v.db, h).value.token] == h
    {
      LeaseChange(o, w.db, |w.issued|, s, h);
      assert LeaseOf(w.db, h).Some? ==> LeaseOf(w.db, h).value.token < |w.issued|;
    }
  }

  // ----- timers in time

  /** The timer was due when its lease was drawn. */
  predicate LeasedInTime(w: World, t: Timer) {
    t.lease.Some? ==> t.lease.value.token < |w.issuedAt| && t.deadline <= w.issuedAt[t.lease.value.token]
  }

  predicate Punctual(w: World) {
    |w.issuedAt| == |w.issued| && forall i :: 0 <= i < |w.db.timers| ==> LeasedInTime(w, w.db.timers[i])
  }

  lemma ClaimedInTime(o: Options, w: World, s: Step, i: nat)
    requires Linked(w.db) && s.ClaimTimerStep? && Outcome(o, w.db, |w.issued|, s).Ok?
    requires ClaimedRow(w.db, |w.issued|, s) == TimerHolder(i)
    ensures i < |w.db.timers| && w.db.timers[i].deadline <= Fence(s.now, s.clock)
  {
    ClaimedTimerIsDue(w.db, |w.issued|, s.now, s.ttl, s.clock);
  }

  lemma TimerTokenIsFresh(o: Options, w: World, s: Step, i: nat)
    requires LeaseShape(w.db) && Linked(w.db) && |w.issuedAt| == |w.issued| && ClaimStep(s)
    requires ClaimedRow(w.db, |w.issued|, s) == TimerHolder(i) && i < |Apply(o, w, s).db.timers|
    requires LeaseOf(Apply(o, w, s).db, TimerHolder(i)).Some?
    requires LeaseOf(Apply(o, w, s).db, TimerHolder(i)).value.token == |w.issued|
    ensures LeasedInTime(Apply(o, w, s), Apply(o, w, s).db.timers[i])
  {
    var v := Apply(o, w, s);
    StepKeepsShape(o, w.db, |w.issued|, s);
    ClaimedInTime(o, w, s, i);
    assert TimerGrows(w.db.timers[i], v.db.timers[i]);
  }

  /** No timer is ever leased before its deadline on the fenced clock. */
  lemma StepKeepsPunctual(o: Options, w: World, s: Step)
    requires LeaseShape(w.db) && Linked(w.db) && Punctual(w)
    ensures Punctual(Apply(o, w, s))
  {
    var v := Apply(o, w, s);
    StepKeepsShape(o, w.db, |w.issued|, s);
    forall i | 0 <= i < |v.db.timers| ensures LeasedInTime(v, v.db.timers[i]) {
      if v.db.timers[i].lease.Some? {
        LeaseChange(o, w.db, |w.issued|, s, TimerHolder(i));
        if LeaseOf(v.db, TimerHolder(i)) == LeaseOf(w.db, TimerHolder(i)) {
          assert LeasedInTime(w, w.db.timers[i]) && TimerGrows(w.db.timers[i], v.db.timers[i]);
        } else {
          TimerTokenIsFresh(o, w, s, i);
        }
      }
    }
  }

  /** The token was drawn, and no row holds it any more. */
  ghost predicate Released(w: World, token: nat) {
    token < |w.issued| && forall h: Holder :: LeaseOf(w.db, h).Some? ==> LeaseOf(w.db, h).value.token != token
  }

  lemma ReleasedForever(o: Options, w: World, s: Step, token: nat)
    requires LeaseShape(w.db) && Released(w, token)
    ensures Released(Apply(o, w, s), token)
  {
    var v := Apply(o, w, s);
    forall h: Holder | LeaseOf(v.db, h).Some? ensures LeaseOf(v.db, h).value.token != token {
      LeaseChange(o, w.db, |w.issued|, s, h);
    }
  }

  /** The row and the token a fenced call acts with. */
  function Presents(s: Step): Option<(int, nat)> {
    match s
    case DeferStep(id, token, _, _, _) => Some((id, token))
    case CompleteInboxStep(id, token, _, _) => Some((id, token))
    case QuarantineStep(id, token, _, _) => Some((id, token))
    case PlanStep(_, id, token, _, _, _, _) => Some((id, token))
    case BeginStep(id, token, _, _) => Some((id, token))
    case CompleteStep(id, token, _, _, _) => Some((id, token))
    case CompleteTopicStep(id, token, _, _, _) => Some((id, token))
    case FailStep(id, token, _, _, _) => Some((id, token))
    case CompleteTimerStep(id, token, _, _, _) => Some((id, token))
    case _ => None
  }

  function Addressed(s: Step, id: nat): Holder {
    if s.DeferStep? || s.CompleteInboxStep? || s.QuarantineStep? || s.PlanStep? then InboxHolder(id)
    else if s.CompleteTimerStep? then TimerHolder(id)
    else OutboxHolder(id)
  }

  /** A lease that a step takes away, by settling, recovery or supersession, releases its token. */
  lemma LostLeaseIsReleased(o: Options, w: World, s: Step, h: Holder)
    requires LeaseShape(w.db) && TokensOwned(w)
    requires LeaseOf(w.db, h).Some? && LeaseOf(Apply(o, w, s).db, h).None?
    ensures Released(Apply(o, w, s), LeaseOf(w.db, h).value.token)
  {
    var v, token := Apply(o, w, s), LeaseOf(w.db, h).value.token;
    StepKeepsTokens(o, w, s);
    forall g: Holder | LeaseOf(v.db, g).Some? ensures LeaseOf(v.db, g).value.token != token {
      assert v.issued[LeaseOf(v.db, g).value.token] == g;
    }
  }

  predicate HoldsToken(db: Db, h: Holder, token: nat) {
    LeaseOf(db, h).Some? && LeaseOf(db, h).value.token == token
  }

  /** A fenced call succeeds only while the row it addresses holds the token it presents. */
  lemma SuccessNeedsLease(o: Options, db: Db, token: nat, s: Step)
    requires Presents(s).Some?
    ensures Outcome(o, db, token, s).Ok? ==>
              Presents(s).value.0 >= 0 && HoldsToken(db, Addressed(s, Presents(s).value.0), Presents(s).value.1)
  {
  }

  // ----- begun sends and planned events

  predicate BegunMatches(db: Db, b: Begun) {
    Started(db.outbox, b.row) && BegunRow(db, b.row) == b
  }

  /** Begun rows are started rows, and none was begun twice. */
  predicate BegunOnce(w: World) {
    && (forall k :: 0 <= k < |w.begun| ==> BegunMatches(w.db, w.begun[k]))
    && (forall j, k :: 0 <= j < k < |w.begun| ==> w.begun[j].row != w.begun[k].row)
    && (forall i :: 0 <= i < |w.db.outbox| && Started(w.db.outbox, i) ==> exists k :: 0 <= k < |w.begun| && w.begun[k].row == i)
  }

  predicate PlannedDone(inbox: seq<InboxRow>, id: int) {
    HasRow(inbox, id) && inbox[id].state.InboxDone?
  }

  predicate PlannedOnce(w: World) {
    && (forall k :: 0 <= k < |w.planned| ==> PlannedDone(w.db.inbox, w.planned[k]))
    && (forall j, k :: 0 <= j < k < |w.planned| ==> w.planned[j] != w.planned[k])
  }

  /** The event of every outbox row is one that was planned. */
  predicate PlannedRows(outbox: seq<OutboxRow>, planned: seq<int>) {
    forall i :: 0 <= i < |outbox| ==> outbox[i].inbox in planned
  }

  lemma BeginIsFirst(o: Options, w: World, s: Step)
    requires LeaseShape(w.db) && BegunOnce(w) && s.BeginStep? && Outcome(o, w.db, |w.issued|, s).Ok?
    ensures var v := Apply(o, w, s);
      && HasRow(w.db.outbox, s.id) && !Started(w.db.outbox, s.id) && BegunMatches(v.db, BegunRow(w.db, s.id))
      && v.db.outbox == w.db.outbox[s.id := v.db.outbox[s.id]]
      && forall k :: 0 <= k < |w.begun| ==> w.begun[k].row != s.id
  {
    assert OutboxShape(w.db.outbox[s.id]);
    forall k | 0 <= k < |w.begun| ensures w.begun[k].row != s.id {
      assert BegunMatches(w.db, w.begun[k]);
    }
  }

  lemma GrowthKeepsBegun(a: Db, b: Db, x: Begun)
    requires QueuesGrow(a, b) && BegunMatches(a, x)
    ensures BegunMatches(b, x)
  {
    assert OutboxRowGrows(a.outbox[x.row], b.outbox[x.row]);
  }

  lemma StepKeepsBegun(o: Options, w: World, s: Step)
    requires LeaseShape(w.db) && BegunOnce(w)
    ensures BegunOnce(Apply(o, w, s))
  {
    var v := Apply(o, w, s);
    StepKeepsShape(o, w.db, |w.issued|, s);
    var begins := s.BeginStep? && Outcome(o, w.db, |w.issued|, s).Ok?;
    if begins {
      BeginIsFirst(o, w, s);
      assert v.begun[|w.begun|].row == s.id;
    } else if !s.BeginStep? {
      NoNewStarts(o, w.db, |w.issued|, s);
    }
    forall k | 0 <= k < |v.begun| ensures BegunMatches(v.db, v.begun[k]) {
      if k < |w.begun| {
        GrowthKeepsBegun(w.db, v.db, w.begun[k]);
      }
    }
    forall i | 0 <= i < |v.db.outbox| && Started(v.db.outbox, i)
      ensures exists k :: 0 <= k < |v.begun| && v.begun[k].row == i
    {
      if !begins || i != s.id {
        assert Started(w.db.outbox, i);
        var k :| 0 <= k < |w.begun| && w.begun[k].row == i;
        assert v.begun[k].row == i;
      }
    }
  }

  lemma PlanMarksDone(o: Options, db: Db, s: Step)
    requires s.PlanStep? && PlanEvent(o, db, s.e, s.id, s.token, s.ds, s.timers, s.now, s.clocks).Ok?
    ensures HasRow(db.inbox, s.id) && db.inbox[s.id].state.InboxLeased?
    ensures PlannedDone(PlanEvent(o, db, s.e, s.id, s.token, s.ds, s.timers, s.now, s.clocks).value.inbox, s.id)
  {
  }

  lemma StepKeepsPlanned(o: Options, w: World, s: Step)
    requires LeaseShape(w.db) && PlannedOnce(w)
    ensures PlannedOnce(Apply(o, w, s))
  {
    var v := Apply(o, w, s);
    StepKeepsShape(o, w.db, |w.issued|, s);
    forall k | 0 <= k < |w.planned| ensures PlannedDone(v.db.inbox, w.planned[k]) {
      assert PlannedDone(w.db.inbox, w.planned[k]);
      assert InboxRowGrows(w.db.inbox[w.planned[k]], v.db.inbox[w.planned[k]]);
    }
    if s.PlanStep? && Outcome(o, w.db, |w.issued|, s).Ok? {
      PlanMarksDone(o, w.db, s);
    }
  }

  lemma StepKeepsPlannedRows(o: Options, w: World, s: Step)
    requires LeaseShape(w.db) && Originated(w.db) && PlannedRows(w.db.outbox, w.planned)
    ensures PlannedRows(Apply(o, w, s).db.outbox, Apply(o, w, s).planned)
  {
    var v := Apply(o, w, s);
    StepKeepsShape(o, w.db, |w.issued|, s);
    if Outcome(o, w.db, |w.issued|, s).Ok? {
      NewRowsHaveOrigins(o, w.db, |w.issued|, s);
      if s.PlanStep? {
        assert v.planned[|w.planned|] == s.id;
      }
    }
    forall i | 0 <= i < |v.db.outbox| ensures v.db.outbox[i].inbox in v.planned {
      if i < |w.db.outbox| {
        assert OutboxRowGrows(w.db.outbox[i], v.db.outbox[i]);
      }
    }
  }

  // ----- the invariant of every run

  ghost predicate Sound(o: Options, w: World) {
    && LeaseShape(w.db) && Schedule(w.db.outbox) && InboxExclusive(w.db.inbox) && Linked(w.db) && Keyed(w.db)
    && Buried(w.db) && Originated(w.db)
    && EchoExact(w.db) && ChatShapes(w.db.chats) && TimersSafe(w.db.timers) && QueueBounds.Bounded(o, w.db)
    && TokensOwned(w) && Punctual(w) && BegunOnce(w) && PlannedOnce(w) && PlannedRows(w.db.outbox, w.planned)
  }

  lemma StepKeepsSound(o: Options, w: World, s: Step)
    requires Sound(o, w)
    ensures Sound(o, Apply(o, w, s)) && Evolves(w.db, Apply(o, w, s).db)
  {
    var t := |w.issued|;
    StepKeepsShape(o, w.db, t, s);
    StepKeepsSchedule(o, w.db, t, s);
    StepKeepsExclusive(o, w.db, t, s);
    StepKeepsLinks(o, w.db, t, s);
    StepKeepsKeys(o, w.db, t, s);
    StepKeepsBuried(o, w.db, t, s);
    StepKeepsOrigins(o, w.db, t, s);
    StepKeepsEchoExact(o, w.db, t, s);
    StepKeepsChatShapes(o, w.db, t, s);
    StepKeepsTimersSafe(o, w.db, t, s);
    StepKeepsBounds(o, w.db, t, s);
    StepKeepsTokens(o, w, s);
    StepKeepsBegun(o, w, s);
    StepKeepsPlanned(o, w, s);
    StepKeepsPunctual(o, w, s);
    StepKeepsPlannedRows(o, w, s);
  }

  lemma EmptyIsBounded(o: Options)
    requires ValidOptions(o)
    ensures QueueBounds.Bounded(o, EMPTY)
  {
    assert InboxCounts([]) == [] && InboxBytes(o, []) == [] && OutboxCounts([]) == [] && OutboxBytes(o, []) == [];
  }

  lemma EmptyIsConsistent()
    ensures LeaseShape(EMPTY) && Schedule(EMPTY.outbox) && InboxExclusive(EMPTY.inbox) && Linked(EMPTY) && Keyed(EMPTY)
    ensures Buried(EMPTY) && Originated(EMPTY) && EchoExact(EMPTY) && ChatShapes(EMPTY.chats) && TimersSafe(EMPTY.timers)
  {
  }

  lemma NothingIssued()
    ensures START.db == EMPTY && TokensOwned(START) && Punctual(START) && BegunOnce(START) && PlannedOnce(START)
    ensures PlannedRows(START.db.outbox, START.planned)
  {
  }

  lemma StartIsSound(o: Options)
    requires ValidOptions(o)
    ensures Sound(o, START)
  {
    EmptyIsBounded(o);
    EmptyIsConsistent();
    NothingIssued();
  }

  /** Everything above holds in every state that any run reaches, and nothing is ever taken back along a run. */
  lemma {:induction false} RunKeepsSound(o: Options, w: World, steps: seq<Step>)
    requires Sound(o, w)
    ensures Sound(o, Execute(o, w, steps)) && Evolves(w.db, Execute(o, w, steps).db)
  {
    if steps == [] {
      QuietReflexive(w.db);
      QuietQueuesGrow(w.db, w.db);
      FrameGrows(w.db, w.db);
    } else {
      var before := Execute(o, w, steps[..|steps| - 1]);
      RunKeepsSound(o, w, steps[..|steps| - 1]);
      StepKeepsSound(o, before, steps[|steps| - 1]);
      GrowsTransitive(w.db, before.db, Execute(o, w, steps).db);
      QueuesGrowTransitive(w.db, before.db, Execute(o, w, steps).db);
    }
  }

  lemma ReachableIsSound(o: Options, steps: seq<Step>)
    requires ValidOptions(o)
    ensures Sound(o, Execute(o, START, steps))
  {
    StartIsSound(o);
    RunKeepsSound(o, START, steps);
  }
}
