/** No Telegram update is lost or doubled, whatever crashes between the poll, the commit and the next poll. */
module PollSafety {
  import opened Prelude
  import opened Domain
  import opened Database
  import opened Admission
  import opened QuietTransactions
  import opened Evolution
  import opened Steps
  import opened Keys
  import opened QueueBounds
  import opened Runs
  import opened Polling

  /** A poller is down, between two polls, or holds an answer that is not yet committed. */
  datatype Poller = Down | Ready(cursor: Cursor) | Fetched(cursor: Cursor, answer: seq<Update>)

  /** The store, the updates the platform has ever issued, and the one poller. */
  datatype System = System(world: World, server: seq<Update>, poller: Poller)

  datatype Move =
    | Issue(u: Update)
    | Elsewhere(s: Step)
    | Launch(epoch: string, clock: int)
    | Fetch(count: nat)
    | Commit(clock: int)
    | Crash

  predicate Rising(server: seq<Update>) {
    forall i, j :: 0 <= i < j < |server| ==> server[i].id < server[j].id
  }

  /** Updates have ids the platform can issue: from 0 on, and rising. */
  predicate ServerSound(server: seq<Update>) {
    Rising(server) && forall k :: 0 <= k < |server| ==> server[k].id >= 0
  }

  /** How many of the issued updates lie below the offset. */
  function Below(server: seq<Update>, offset: int): (n: nat)
    ensures n <= |server| && (forall i :: 0 <= i < n ==> server[i].id < offset) && (n < |server| ==> server[n].id >= offset)
  {
    if server == [] then 0
    else if server[0].id < offset then 1 + Below(server[1..], offset) else 0
  }

  /** `getUpdates`: at most `count` of the pending updates from the offset on, oldest first. */
  function Pending(server: seq<Update>, offset: int, count: nat): seq<Update> {
    var n := Below(server, offset);
    server[n..n + if count < |server| - n then count else |server| - n]
  }

  /** The store call of a move: admission of batches is the poller's alone. */
  function StoreCall(y: System, move: Move): Option<Step> {
    match move
    case Elsewhere(s) => if s.AcceptBatch? then None else Some(s)
    case Launch(epoch, clock) =>
      if y.poller.Down? && y.world.db.cursor.None? then Some(AcceptBatch([], 0, epoch, clock)) else None
    case Commit(clock) =>
      if y.poller.Fetched? && PollAll(y.poller.cursor, y.poller.answer).Polled?
      then
        var p := PollAll(y.poller.cursor, y.poller.answer);
        Some(AcceptBatch(p.events, p.next, y.poller.cursor.epoch, clock))
      else None
    case _ => None
  }

  /** `ok`: the store call of the move, if any, was committed. */
  function NextPoller(y: System, move: Move, ok: bool): Poller {
    match move
    case Launch(epoch, clock) =>
      if !y.poller.Down? then y.poller
      else if y.world.db.cursor.None? then if ok then Ready(Cursor(0, epoch)) else Down
      else if ValidCursor(y.world.db.cursor.value) then Ready(y.world.db.cursor.value) else Down
    case Fetch(count) =>
      if !y.poller.Ready? then y.poller
      else
        var answer := Pending(y.server, y.poller.cursor.next, if count < MAX_BATCH then count else MAX_BATCH);
        var p := PollAnswer(y.poller.cursor, answer);
        if p.PollFailed? then Down else if answer == [] then y.poller else Fetched(y.poller.cursor, answer)
    case Commit(_) =>
      if !y.poller.Fetched? then y.poller
      else if ok then Ready(y.poller.cursor.(next := NextAfter(y.poller.cursor, y.poller.answer))) else Down
    case Crash => Down
    case _ => y.poller
  }

  ghost function Advance(o: Options, y: System, move: Move): System {
    var call := StoreCall(y, move);
    var ok := call.Some? && Outcome(o, y.world.db, |y.world.issued|, call.value).Ok?;
    System(if call.Some? then Apply(o, y.world, call.value) else y.world,
           if move.Issue? && ServerSound(y.server + [move.u]) then y.server + [move.u] else y.server,
           NextPoller(y, move, ok))
  }

  ghost function RunSystem(o: Options, y: System, moves: seq<Move>): System {
    if moves == [] then y else Advance(o, RunSystem(o, y, moves[..|moves| - 1]), moves[|moves| - 1])
  }

  // ----- the invariant

  ghost predicate AdmittedOnce(inbox: seq<InboxRow>, e: Event) {
    exists i :: 0 <= i < |inbox| && inbox[i].payload == e
                && forall j :: 0 <= j < |inbox| && inbox[j].dedupe == AdmissionKey(e) ==> j == i
  }

  ghost predicate Admitted(inbox: seq<InboxRow>, e: Event) {
    exists i :: 0 <= i < |inbox| && inbox[i].payload == e
  }

  /** Every issued update below the stored cursor is in the inbox. */
  ghost predicate AllAdmitted(inbox: seq<InboxRow>, c: Cursor, server: seq<Update>) {
    forall k :: 0 <= k < |server| && server[k].id < c.next ==>
      Normalize(server[k], c.epoch).Some? && Admitted(inbox, Normalize(server[k], c.epoch).value)
  }

  /** The stored position was reached through an issued update. */
  predicate Reached(c: Cursor, server: seq<Update>) {
    && 0 <= c.next <= MAX_ID
    && (c.next == 0 || exists k :: 0 <= k < |server| && server[k].id == c.next - 1)
  }

  ghost predicate CursorSound(inbox: seq<InboxRow>, c: Cursor, server: seq<Update>) {
    AllAdmitted(inbox, c, server) && Reached(c, server)
  }

  /** An uncommitted answer is the stretch of issued updates that starts at the cursor. */
  predicate AnswerSound(c: Cursor, answer: seq<Update>, server: seq<Update>) {
    var n := Below(server, c.next);
    && 0 < |answer| <= |server| - n && answer == server[n..n + |answer|] && InOrder(c, answer)
  }

  predicate PollerSound(db: Db, p: Poller, server: seq<Update>) {
    && (!p.Down? ==> db.cursor == Some(p.cursor))
    && (p.Fetched? ==> AnswerSound(p.cursor, p.answer, server))
  }

  ghost predicate PollSound(db: Db, p: Poller, server: seq<Update>) {
    && ServerSound(server) && PollerSound(db, p, server)
    && (db.cursor.Some? ==> CursorSound(db.inbox, db.cursor.value, server))
  }

  ghost predicate SystemSound(o: Options, y: System) {
    Sound(o, y.world) && PollSound(y.world.db, y.poller, y.server)
  }

  // ----- the platform issues an update

  lemma BelowIs(server: seq<Update>, offset: int, n: nat)
    requires Rising(server) && n <= |server|
    requires (forall i :: 0 <= i < n ==> server[i].id < offset) && (n < |server| ==> server[n].id >= offset)
    ensures Below(server, offset) == n
  {
    var m := Below(server, offset);
    assert m < |server| ==> server[m].id >= offset;
    assert n < |server| ==> server[n].id >= offset;
  }

  lemma IssueKeepsCursor(inbox: seq<InboxRow>, c: Cursor, server: seq<Update>, u: Update)
    requires CursorSound(inbox, c, server) && ServerSound(server + [u])
    ensures CursorSound(inbox, c, server + [u])
  {
    var longer := server + [u];
    assert forall k :: 0 <= k < |server| ==> longer[k] == server[k];
    if c.next > 0 {
      var k :| 0 <= k < |server| && server[k].id == c.next - 1;
      assert longer[k].id < longer[|server|].id;
    }
  }

  lemma IssueKeepsAnswer(c: Cursor, answer: seq<Update>, server: seq<Update>, u: Update)
    requires AnswerSound(c, answer, server) && ServerSound(server + [u])
    ensures AnswerSound(c, answer, server + [u])
  {
    var n := Below(server, c.next);
    BelowIs(server + [u], c.next, n);
    assert (server + [u])[n..n + |answer|] == server[n..n + |answer|];
  }

  // ----- other store calls

  lemma OnlyBatchesMoveCursor(o: Options, db: Db, token: nat, s: Step)
    requires !s.AcceptBatch?
    ensures After(o, db, token, s).cursor == db.cursor
  {
    if Outcome(o, db, token, s).Ok? {
      if s.PlanStep? {
        PlanFrame(o, db, s);
      } else if s.CompleteTimerStep? {
        ApplyTimerParts(o, db, db.timers[s.id], s.ds, Fence(s.now, s.clocks.first));
      }
    }
  }

  lemma GrowthKeepsAdmitted(a: Db, b: Db, c: Cursor, server: seq<Update>)
    requires QueuesGrow(a, b) && AllAdmitted(a.inbox, c, server)
    ensures AllAdmitted(b.inbox, c, server)
  {
    forall k | 0 <= k < |server| && server[k].id < c.next ensures Admitted(b.inbox, Normalize(server[k], c.epoch).value) {
      var i :| 0 <= i < |a.inbox| && a.inbox[i].payload == Normalize(server[k], c.epoch).value;
      assert InboxRowGrows(a.inbox[i], b.inbox[i]);
    }
  }

  // ----- the poller

  lemma FetchIsSound(c: Cursor, server: seq<Update>, count: nat)
    requires ServerSound(server) && Pending(server, c.next, count) != []
    requires PollAnswer(c, Pending(server, c.next, count)).Polled?
    ensures AnswerSound(c, Pending(server, c.next, count), server)
  {
    PollTakesOrdered(c, Pending(server, c.next, count));
  }

  lemma ExtensionKeepsAdmitted(a: seq<InboxRow>, b: seq<InboxRow>, e: Event)
    requires a <= b && Admitted(a, e)
    ensures Admitted(b, e)
  {
    var i :| 0 <= i < |a| && a[i].payload == e;
    assert b[i] == a[i];
  }

  lemma AcceptAdmits(o: Options, inbox: seq<InboxRow>, e: Event, clock: int)
    requires Accept(o, inbox, e, clock).Ok?
    ensures Admitted(Accept(o, inbox, e, clock).value.inbox, e)
  {
    var a := Accept(o, inbox, e, clock).value;
    assert a.inbox[a.id].payload == e;
  }

  lemma OneMoreAdmitted(events: seq<Event>, before: seq<InboxRow>, after: seq<InboxRow>)
    requires events != [] && before <= after && Admitted(after, events[|events| - 1])
    requires forall e :: e in events[..|events| - 1] ==> Admitted(before, e)
    ensures forall e :: e in events ==> Admitted(after, e)
  {
    forall e | e in events ensures Admitted(after, e) {
      if e in events[..|events| - 1] {
        ExtensionKeepsAdmitted(before, after, e);
      }
    }
  }

  lemma {:induction false} AcceptAllAdmits(o: Options, inbox: seq<InboxRow>, events: seq<Event>, epoch: string, clock: int)
    requires AcceptAll(o, inbox, events, epoch, clock).Ok?
    ensures forall e :: e in events ==> Admitted(AcceptAll(o, inbox, events, epoch, clock).value, e)
  {
    if events != [] {
      var n := |events| - 1;
      var before := AcceptAll(o, inbox, events[..n], epoch, clock).value;
      AcceptAllAdmits(o, inbox, events[..n], epoch, clock);
      AcceptExtends(o, before, events[n], clock);
      AcceptAdmits(o, before, events[n], clock);
      OneMoreAdmitted(events, before, AcceptAll(o, inbox, events, epoch, clock).value);
    }
  }

  /** The updates between the cursor and the position after a committed answer are those of the answer. */
  lemma StretchCovers(server: seq<Update>, n: nat, len: nat, k: nat)
    requires Rising(server) && 0 < len && n + len <= |server| && n <= k < |server|
    requires server[k].id <= server[n + len - 1].id
    ensures k < n + len && server[n..n + len][k - n] == server[k]
  {
  }

  lemma AnswerCovers(server: seq<Update>, offset: int, answer: seq<Update>, k: nat)
    requires Rising(server) && k < |server| && 0 < |answer| <= |server| - Below(server, offset)
    requires answer == server[Below(server, offset)..Below(server, offset) + |answer|]
    requires offset <= server[k].id <= answer[|answer| - 1].id
    ensures 0 <= k - Below(server, offset) < |answer| && answer[k - Below(server, offset)] == server[k]
  {
    var n := Below(server, offset);
    assert n <= k;
    assert answer[|answer| - 1] == server[n + |answer| - 1];
    StretchCovers(server, n, |answer|, k);
  }

  lemma AnswerAdmitted(o: Options, inbox: seq<InboxRow>, c: Cursor, answer: seq<Update>, clock: int, i: nat)
    requires PollAll(c, answer).Polled? && AcceptAll(o, inbox, PollAll(c, answer).events, c.epoch, clock).Ok? && i < |answer|
    ensures Normalize(answer[i], c.epoch).Some?
    ensures Admitted(AcceptAll(o, inbox, PollAll(c, answer).events, c.epoch, clock).value, Normalize(answer[i], c.epoch).value)
  {
    PolledEvents(c, answer);
    AcceptAllAdmits(o, inbox, PollAll(c, answer).events, c.epoch, clock);
    assert Some(PollAll(c, answer).events[i]) == Normalize(answer[i], c.epoch);
  }

  lemma CommitAdmits(o: Options, inbox: seq<InboxRow>, c: Cursor, answer: seq<Update>, server: seq<Update>, clock: int)
    requires ServerSound(server) && AnswerSound(c, answer, server) && AllAdmitted(inbox, c, server)
    requires var p := PollAll(c, answer); p.Polled? && AcceptAll(o, inbox, p.events, c.epoch, clock).Ok?
    ensures AllAdmitted(AcceptAll(o, inbox, PollAll(c, answer).events, c.epoch, clock).value,
                        c.(next := NextAfter(c, answer)), server)
  {
    var after := AcceptAll(o, inbox, PollAll(c, answer).events, c.epoch, clock).value;
    AcceptAllExtends(o, inbox, PollAll(c, answer).events, c.epoch, clock);
    forall k | 0 <= k < |server| && server[k].id < NextAfter(c, answer)
      ensures Normalize(server[k], c.epoch).Some? && Admitted(after, Normalize(server[k], c.epoch).value)
    {
      if server[k].id < c.next {
        ExtensionKeepsAdmitted(inbox, after, Normalize(server[k], c.epoch).value);
      } else {
        AnswerCovers(server, c.next, answer, k);
        AnswerAdmitted(o, inbox, c, answer, clock, k - Below(server, c.next));
      }
    }
  }

  lemma CommitReaches(c: Cursor, answer: seq<Update>, server: seq<Update>)
    requires AnswerSound(c, answer, server) && Reached(c, server)
    ensures Reached(c.(next := NextAfter(c, answer)), server)
  {
    PollTakesOrdered(c, answer);
    var last := Below(server, c.next) + |answer| - 1;
    assert answer[|answer| - 1] == server[last];
  }

  // ----- every move keeps the invariant

  lemma BatchCommits(o: Options, w: World, events: seq<Event>, next: int, epoch: string, clock: int)
    requires AcceptTelegramBatch(o, w.db, events, next, epoch, clock).Ok?
    ensures var b := Apply(o, w, AcceptBatch(events, next, epoch, clock)).db;
      AcceptAll(o, w.db.inbox, events, epoch, clock).Ok? && b.cursor == Some(Cursor(next, epoch))
      && b.inbox == AcceptAll(o, w.db.inbox, events, epoch, clock).value
  {
  }

  lemma RefusedKeepsDb(o: Options, w: World, s: Step)
    requires Outcome(o, w.db, |w.issued|, s).Err?
    ensures Apply(o, w, s).db == w.db
  {
  }

  lemma ElsewhereKeepsPolling(o: Options, w: World, p: Poller, server: seq<Update>, s: Step)
    requires Sound(o, w) && PollSound(w.db, p, server) && !s.AcceptBatch?
    ensures PollSound(Apply(o, w, s).db, p, server)
  {
    OnlyBatchesMoveCursor(o, w.db, |w.issued|, s);
    StepKeepsShape(o, w.db, |w.issued|, s);
    if w.db.cursor.Some? {
      GrowthKeepsAdmitted(w.db, Apply(o, w, s).db, w.db.cursor.value, server);
    }
  }

  lemma LaunchKeepsPolling(o: Options, w: World, server: seq<Update>, epoch: string, clock: int)
    requires ServerSound(server) && w.db.cursor.None?
    requires AcceptTelegramBatch(o, w.db, [], 0, epoch, clock).Ok?
    ensures PollSound(Apply(o, w, AcceptBatch([], 0, epoch, clock)).db, Ready(Cursor(0, epoch)), server)
  {
    BatchCommits(o, w, [], 0, epoch, clock);
  }

  lemma CommitKeepsPolling(o: Options, w: World, p: Poller, server: seq<Update>, clock: int)
    requires PollSound(w.db, p, server) && p.Fetched? && PollAll(p.cursor, p.answer).Polled?
    requires var b := PollAll(p.cursor, p.answer); AcceptTelegramBatch(o, w.db, b.events, b.next, p.cursor.epoch, clock).Ok?
    ensures var b := PollAll(p.cursor, p.answer);
      PollSound(Apply(o, w, AcceptBatch(b.events, b.next, p.cursor.epoch, clock)).db,
                Ready(p.cursor.(next := NextAfter(p.cursor, p.answer))), server)
  {
    var b := PollAll(p.cursor, p.answer);
    PollTakesOrdered(p.cursor, p.answer);
    BatchCommits(o, w, b.events, b.next, p.cursor.epoch, clock);
    CommitAdmits(o, w.db.inbox, p.cursor, p.answer, server, clock);
    CommitReaches(p.cursor, p.answer, server);
  }

  lemma IssueKeepsPolling(db: Db, p: Poller, server: seq<Update>, u: Update)
    requires PollSound(db, p, server) && ServerSound(server + [u])
    ensures PollSound(db, p, server + [u])
  {
    if db.cursor.Some? {
      IssueKeepsCursor(db.inbox, db.cursor.value, server, u);
    }
    if p.Fetched? {
      IssueKeepsAnswer(p.cursor, p.answer, server, u);
    }
  }

  /** A poller that is down, or starts again from the stored cursor, knows nothing that could be wrong. */
  lemma RestartKeepsPolling(db: Db, p: Poller, server: seq<Update>)
    requires PollSound(db, p, server)
    ensures PollSound(db, Down, server) && (db.cursor.Some? ==> PollSound(db, Ready(db.cursor.value), server))
  {
  }

  lemma FetchKeepsPolling(db: Db, p: Poller, server: seq<Update>, count: nat)
    requires PollSound(db, p, server) && p.Ready?
    requires Pending(server, p.cursor.next, count) != [] && PollAnswer(p.cursor, Pending(server, p.cursor.next, count)).Polled?
    ensures PollSound(db, Fetched(p.cursor, Pending(server, p.cursor.next, count)), server)
  {
    FetchIsSound(p.cursor, server, count);
  }

  ghost predicate Settled(o: Options, y: System, move: Move) {
    var z := Advance(o, y, move);
    PollSound(z.world.db, z.poller, z.server)
  }

  lemma LaunchMove(o: Options, y: System, epoch: string, clock: int)
    requires PollSound(y.world.db, y.poller, y.server)
    ensures Settled(o, y, Launch(epoch, clock))
  {
    RestartKeepsPolling(y.world.db, y.poller, y.server);
    if y.poller.Down? && y.world.db.cursor.None? {
      if AcceptTelegramBatch(o, y.world.db, [], 0, epoch, clock).Ok? {
        LaunchKeepsPolling(o, y.world, y.server, epoch, clock);
      } else {
        RefusedKeepsDb(o, y.world, AcceptBatch([], 0, epoch, clock));
      }
    }
  }

  lemma CommitMove(o: Options, y: System, clock: int)
    requires PollSound(y.world.db, y.poller, y.server)
    ensures Settled(o, y, Commit(clock))
  {
    RestartKeepsPolling(y.world.db, y.poller, y.server);
    if y.poller.Fetched? {
      var b := PollAll(y.poller.cursor, y.poller.answer);
      PollTakesOrdered(y.poller.cursor, y.poller.answer);
      if AcceptTelegramBatch(o, y.world.db, b.events, b.next, y.poller.cursor.epoch, clock).Ok? {
        CommitKeepsPolling(o, y.world, y.poller, y.server, clock);
      } else {
        RefusedKeepsDb(o, y.world, AcceptBatch(b.events, b.next, y.poller.cursor.epoch, clock));
      }
    }
  }

  lemma FetchMove(o: Options, y: System, count: nat)
    requires PollSound(y.world.db, y.poller, y.server)
    ensures Settled(o, y, Fetch(count))
  {
    RestartKeepsPolling(y.world.db, y.poller, y.server);
    if y.poller.Ready? {
      var n := if count < MAX_BATCH then count else MAX_BATCH;
      var answer := Pending(y.server, y.poller.cursor.next, n);
      if answer != [] && PollAnswer(y.poller.cursor, answer).Polled? {
        FetchKeepsPolling(y.world.db, y.poller, y.server, n);
      }
    }
  }

  lemma QuietMove(o: Options, y: System, move: Move)
    requires SystemSound(o, y) && (move.Issue? || move.Elsewhere? || move.Crash?)
    ensures Settled(o, y, move)
  {
    match move
    case Issue(u) => if ServerSound(y.server + [u]) { IssueKeepsPolling(y.world.db, y.poller, y.server, u); }
    case Elsewhere(s) => if !s.AcceptBatch? { ElsewhereKeepsPolling(o, y.world, y.poller, y.server, s); }
    case Crash => RestartKeepsPolling(y.world.db, y.poller, y.server);
  }

  lemma MoveKeepsWorld(o: Options, y: System, move: Move)
    requires Sound(o, y.world)
    ensures Sound(o, Advance(o, y, move).world) && CursorGrows(y.world.db.cursor, Advance(o, y, move).world.db.cursor)
  {
    var call := StoreCall(y, move);
    if call.Some? {
      StepKeepsSound(o, y.world, call.value);
    }
  }

  lemma MoveKeepsSystem(o: Options, y: System, move: Move)
    requires SystemSound(o, y)
    ensures SystemSound(o, Advance(o, y, move)) && CursorGrows(y.world.db.cursor, Advance(o, y, move).world.db.cursor)
  {
    MoveKeepsWorld(o, y, move);
    match move
    case Launch(epoch, clock) => LaunchMove(o, y, epoch, clock);
    case Commit(clock) => CommitMove(o, y, clock);
    case Fetch(count) => FetchMove(o, y, count);
    case _ => QuietMove(o, y, move);
  }

  lemma {:induction false} RunKeepsSystem(o: Options, y: System, moves: seq<Move>)
    requires SystemSound(o, y)
    ensures SystemSound(o, RunSystem(o, y, moves))
    ensures CursorGrows(y.world.db.cursor, RunSystem(o, y, moves).world.db.cursor)
  {
    if moves != [] {
      var n := |moves| - 1;
      RunKeepsSystem(o, y, moves[..n]);
      MoveKeepsSystem(o, RunSystem(o, y, moves[..n]), moves[n]);
    }
  }

  lemma AdmittedIsOnce(inbox: seq<InboxRow>, e: Event)
    requires UniqueInbox(inbox) && Admitted(inbox, e)
    ensures AdmittedOnce(inbox, e)
  {
    var i :| 0 <= i < |inbox| && inbox[i].payload == e;
    assert inbox[i].dedupe == AdmissionKey(e);
  }

  function FirstState(server: seq<Update>): System {
    System(START, server, Down)
  }

  /**
   * At every crash point each issued update below the stored cursor has exactly one inbox row, with the update as its
   * payload, and the cursor stays within the range of update ids.
   */
  lemma NoUpdateLostOrDoubled(o: Options, server: seq<Update>, moves: seq<Move>, k: nat)
    requires ValidOptions(o) && ServerSound(server)
    requires var y := RunSystem(o, FirstState(server), moves);
      y.world.db.cursor.Some? && k < |y.server| && y.server[k].id < y.world.db.cursor.value.next
    ensures var y := RunSystem(o, FirstState(server), moves);
      var e := Normalize(y.server[k], y.world.db.cursor.value.epoch);
      0 <= y.world.db.cursor.value.next <= MAX_ID && e.Some? && AdmittedOnce(y.world.db.inbox, e.value)
  {
    StartIsSound(o);
    RunKeepsSystem(o, FirstState(server), moves);
    var y := RunSystem(o, FirstState(server), moves);
    AdmittedIsOnce(y.world.db.inbox, Normalize(y.server[k], y.world.db.cursor.value.epoch).value);
  }

  /** The cursor never goes back and its epoch never changes, through any later crashes and restarts. */
  lemma CursorNeverGoesBack(o: Options, server: seq<Update>, moves: seq<Move>, later: seq<Move>)
    requires ValidOptions(o) && ServerSound(server)
    ensures var y := RunSystem(o, FirstState(server), moves);
      CursorGrows(y.world.db.cursor, RunSystem(o, y, later).world.db.cursor)
  {
    StartIsSound(o);
    RunKeepsSystem(o, FirstState(server), moves);
    RunKeepsSystem(o, RunSystem(o, FirstState(server), moves), later);
  }

  /** Different updates never share an inbox row. */
  lemma UpdatesKeptApart(u: Update, v: Update, epoch: string)
    requires u.id != v.id && Normalize(u, epoch).Some? && Normalize(v, epoch).Some?
    ensures AdmissionKey(Normalize(u, epoch).value) != AdmissionKey(Normalize(v, epoch).value)
  {
    if Decimal(u.id) == Decimal(v.id) {
      DecimalInjective(u.id, v.id);
    }
  }

  // ----- the polling loop is such a poller

  lemma RunNext(o: Options, y: System, moves: seq<Move>, m: Move)
    ensures RunSystem(o, y, moves + [m]) == Advance(o, RunSystem(o, y, moves), m)
  {
    assert (moves + [m])[..|moves|] == moves;
  }

  /** The system is where the loop is: the same database, and a poller that holds the loop's cursor or is down. */
  predicate Mirrors(y: System, l: Loop) {
    y.world.db == l.db && y.poller == if l.stop.None? then Ready(l.cursor) else Down
  }

  /** Starting the loop is a launch, after which a loop that must not run is taken down. */
  lemma StartIsLaunch(o: Options, y: System, epoch: string, t: Launching)
    requires y.poller.Down?
    ensures var l, z := Start(o, y.world.db, epoch, t), Advance(o, y, Launch(epoch, t.clock));
      && z.server == y.server && z.world.db == l.db
      && Mirrors(if l.stop.None? then z else Advance(o, z, Crash), l)
  {
  }

  /** A fetch takes the answer, or takes the poller down with it. */
  lemma FetchTakes(o: Options, y: System, c: Cursor, count: nat)
    requires y.poller == Ready(c) && count <= MAX_BATCH
    ensures var z, updates := Advance(o, y, Fetch(count)), Pending(y.server, c.next, count);
      && z.world == y.world && z.server == y.server
      && z.poller == if PollAnswer(c, updates).PollFailed? then Down else if updates == [] then Ready(c)
                     else Fetched(c, updates)
  {
  }

  /** A commit brings the fetched batch into the store, or takes the poller down. */
  lemma CommitTakes(o: Options, y: System, c: Cursor, updates: seq<Update>, clock: int)
    requires y.poller == Fetched(c, updates) && PollAll(c, updates).Polled?
    ensures var z, p := Advance(o, y, Commit(clock)), PollAll(c, updates);
      var tx := AcceptTelegramBatch(o, y.world.db, p.events, p.next, c.epoch, clock);
      && z.server == y.server
      && (if tx.Ok? then z.world.db == tx.value && z.poller == Ready(c.(next := p.next))
          else z.world.db == y.world.db && z.poller == Down)
  {
    PolledInOrder(c, updates);
  }

  lemma IdleCommit(o: Options, y: System, clock: int)
    requires !y.poller.Fetched?
    ensures Advance(o, y, Commit(clock)) == y
  {
  }

  /** A turn that is answered by the server is a fetch and a commit. */
  lemma TurnIsFetchAndCommit(o: Options, y: System, l: Loop, a: Answer, count: nat)
    requires Mirrors(y, l) && l.stop.None? && a.now - l.lastContact < SEVEN_DAYS && count <= MAX_BATCH
    requires a.reply.Answered? && a.reply.updates == Pending(y.server, l.cursor.next, count)
    ensures var z := Advance(o, Advance(o, y, Fetch(count)), Commit(a.reply.clock));
      Mirrors(z, Turn(o, l, a)) && z.server == y.server
  {
    var x, updates := Advance(o, y, Fetch(count)), a.reply.updates;
    FetchTakes(o, y, l.cursor, count);
    if PollAnswer(l.cursor, updates).PollFailed? || updates == [] {
      IdleCommit(o, x, a.reply.clock);
    } else {
      PolledEvents(l.cursor, updates);
      CommitTakes(o, x, l.cursor, updates, a.reply.clock);
    }
  }

  predicate FromServer(server: seq<Update>, c: Cursor, updates: seq<Update>) {
    exists count: nat :: count <= MAX_BATCH && updates == Pending(server, c.next, count)
  }

  /** What the loop is answered comes from the server: pending updates from the cursor on, at most a batch of them. */
  ghost predicate Served(o: Options, server: seq<Update>, start: Loop, answers: seq<Answer>) {
    forall n :: 0 <= n < |answers| && answers[n].reply.Answered? ==>
      FromServer(server, Turns(o, start, answers[..n]).cursor, answers[n].reply.updates)
  }

  /** One turn, as at most two moves. */
  lemma TurnIsMoves(o: Options, y: System, l: Loop, a: Answer) returns (moves: seq<Move>)
    requires Mirrors(y, l) && (a.reply.Answered? ==> FromServer(y.server, l.cursor, a.reply.updates))
    ensures Mirrors(RunSystem(o, y, moves), Turn(o, l, a)) && RunSystem(o, y, moves).server == y.server
  {
    if l.stop.Some? || (a.now - l.lastContact < SEVEN_DAYS && a.reply.Retry?) {
      moves := [];
    } else if a.now - l.lastContact >= SEVEN_DAYS {
      moves := [] + [Crash];
      RunNext(o, y, [], Crash);
    } else {
      var count: nat :| count <= MAX_BATCH && a.reply.updates == Pending(y.server, l.cursor.next, count);
      TurnIsFetchAndCommit(o, y, l, a, count);
      RunNext(o, y, [], Fetch(count));
      RunNext(o, y, [] + [Fetch(count)], Commit(a.reply.clock));
      moves := [] + [Fetch(count)] + [Commit(a.reply.clock)];
    }
  }

  lemma {:induction false} RunConcat(o: Options, y: System, a: seq<Move>, b: seq<Move>)
    ensures RunSystem(o, y, a + b) == RunSystem(o, RunSystem(o, y, a), b)
  {
    if b == [] {
      assert a + b == a;
    } else {
      RunConcat(o, y, a, b[..|b| - 1]);
      assert (a + b)[..|a + b| - 1] == a + b[..|b| - 1];
    }
  }

  /** Whatever the server answers, a run of the polling loop is a run of the system. */
  lemma {:induction false} LoopIsMoves(o: Options, y: System, l: Loop, answers: seq<Answer>) returns (moves: seq<Move>)
    requires Mirrors(y, l) && Served(o, y.server, l, answers)
    ensures Mirrors(RunSystem(o, y, moves), Turns(o, l, answers)) && RunSystem(o, y, moves).server == y.server
  {
    moves := [];
    if answers != [] {
      var n := |answers| - 1;
      assert forall k :: 0 <= k < n ==> answers[..n][..k] == answers[..k];
      var before := LoopIsMoves(o, y, l, answers[..n]);
      var last := TurnIsMoves(o, RunSystem(o, y, before), Turns(o, l, answers[..n]), answers[n]);
      RunConcat(o, y, before, last);
      moves := before + last;
    }
  }

  /** The polling loop itself loses and doubles nothing: every update below the cursor it leaves is in the inbox once. */
  lemma PollingLosesNothing(o: Options, server: seq<Update>, epoch: string, t: Launching, answers: seq<Answer>, k: nat)
    requires ValidOptions(o) && ServerSound(server) && k < |server|
    requires Served(o, server, Start(o, EMPTY, epoch, t), answers)
    requires var l := Turns(o, Start(o, EMPTY, epoch, t), answers); l.db.cursor.Some? && server[k].id < l.db.cursor.value.next
    ensures var l := Turns(o, Start(o, EMPTY, epoch, t), answers);
      var e := Normalize(server[k], l.db.cursor.value.epoch);
      e.Some? && AdmittedOnce(l.db.inbox, e.value)
  {
    var l := Start(o, EMPTY, epoch, t);
    StartIsLaunch(o, FirstState(server), epoch, t);
    RunNext(o, FirstState(server), [], Launch(epoch, t.clock));
    var first := [] + [Launch(epoch, t.clock)];
    if l.stop.Some? {
      RunNext(o, FirstState(server), first, Crash);
      first := first + [Crash];
    }
    var rest := LoopIsMoves(o, RunSystem(o, FirstState(server), first), l, answers);
    RunConcat(o, FirstState(server), first, rest);
    NoUpdateLostOrDoubled(o, server, first + rest, k);
  }
}
