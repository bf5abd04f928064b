/** The Telegram cursor protocol of `internal/telegram/polling.go`, with HTTP reduced to the answers it brings. */
module Polling {
  import opened Prelude
  import opened Domain
  import opened Database
  import Admission
  import opened BridgeStore

  const MAX_ID := 0x7FFF_FFFF_FFFF_FFFF

  const MAX_BATCH := 100

  /** One entry of an answer; `event` is what the normalizer reads in it, if it is well formed. */
  datatype Update = Update(id: int, event: Option<Event>)

  /** The event of an update carries the update's id as its key and the epoch of the cursor. */
  function Normalize(u: Update, epoch: string): Option<Event> {
    if u.event.None? || u.id < 0 || u.id > MAX_ID || epoch == "" || |epoch| > 256 then None
    else
      var e := u.event.value;
      Some(e.(key := Decimal(u.id), source := Telegram, version := e.version.(epoch := epoch)))
  }

  /** What is read in an update: its id becomes the key and the cursor's epoch that of the version; the rest is kept. */
  lemma NormalizedExactlyWhen(u: Update, epoch: string)
    ensures Normalize(u, epoch).Some? <==> u.event.Some? && 0 <= u.id <= 0x7FFF_FFFF_FFFF_FFFF && 0 < |epoch| <= 256
    ensures Normalize(u, epoch).Some? ==>
              var e, n := u.event.value, Normalize(u, epoch).value;
              && n.key == Decimal(u.id) && n.source == Telegram && n.version.epoch == epoch
              && n.(key := e.key, source := e.source, version := n.version.(epoch := e.version.epoch)) == e
  {
  }

  datatype PollError = MalformedAnswer | MalformedUpdate | EpochReview | LastId

  datatype Polled = Polled(events: seq<Event>, next: int) | PollFailed(error: PollError)

  /** Ids must rise from the cursor on; the batch and the position after it are taken together or not at all. */
  function PollAll(c: Cursor, updates: seq<Update>): Polled {
    if updates == [] then Polled([], c.next)
    else
      var before := PollAll(c, updates[..|updates| - 1]);
      var u := updates[|updates| - 1];
      if before.PollFailed? then before
      else if Normalize(u, c.epoch).None? then PollFailed(MalformedUpdate)
      else if u.id < before.next then PollFailed(EpochReview)
      else if u.id == MAX_ID then PollFailed(LastId)
      else Polled(before.events + [Normalize(u, c.epoch).value], u.id + 1)
  }

  function PollAnswer(c: Cursor, updates: seq<Update>): Polled {
    if |updates| > MAX_BATCH then PollFailed(MalformedAnswer) else PollAll(c, updates)
  }

  lemma {:induction false} FirstFailureStands(c: Cursor, updates: seq<Update>, n: nat)
    requires n <= |updates| && PollAll(c, updates[..n]).PollFailed?
    ensures PollAll(c, updates) == PollAll(c, updates[..n])
  {
    if n == |updates| {
      assert updates[..n] == updates;
    } else {
      var rest := updates[..|updates| - 1];
      assert rest[..n] == updates[..n];
      FirstFailureStands(c, rest, n);
    }
  }

  method Poll(c: Cursor, updates: seq<Update>) returns (r: Polled)
    ensures r == PollAnswer(c, updates)
  {
    if |updates| > MAX_BATCH {
      return PollFailed(MalformedAnswer);
    }
    var events, next := [], c.next;
    for i := 0 to |updates|
      invariant PollAll(c, updates[..i]) == Polled(events, next)
    {
      assert updates[..i + 1][..i] == updates[..i];
      var u := updates[i];
      var e := Normalize(u, c.epoch);
      if e.None? || u.id < next || u.id == MAX_ID {
        FirstFailureStands(c, updates, i + 1);
        return PollFailed(if e.None? then MalformedUpdate else if u.id < next then EpochReview else LastId);
      }
      events, next := events + [e.value], u.id + 1;
    }
    assert updates[..|updates|] == updates;
    return Polled(events, next);
  }

  /** What an answer must look like to be accepted: readable updates with ids that rise from the cursor on. */
  predicate InOrder(c: Cursor, updates: seq<Update>) {
    && (forall i :: 0 <= i < |updates| ==>
          Normalize(updates[i], c.epoch).Some? && c.next <= updates[i].id && updates[i].id != MAX_ID)
    && (forall i, j :: 0 <= i < j < |updates| ==> updates[i].id < updates[j].id)
  }

  function NextAfter(c: Cursor, updates: seq<Update>): int {
    if updates == [] then c.next else updates[|updates| - 1].id + 1
  }

  lemma OneMoreInOrder(c: Cursor, updates: seq<Update>)
    requires updates != [] && InOrder(c, updates[..|updates| - 1])
    requires var u := updates[|updates| - 1];
      Normalize(u, c.epoch).Some? && NextAfter(c, updates[..|updates| - 1]) <= u.id && u.id != MAX_ID
    ensures InOrder(c, updates)
  {
    var rest, u := updates[..|updates| - 1], updates[|updates| - 1];
    forall i | 0 <= i < |rest| ensures c.next <= updates[i].id < u.id {
      assert rest[i].id <= rest[|rest| - 1].id;
    }
  }

  lemma {:induction false} PolledInOrder(c: Cursor, updates: seq<Update>)
    ensures PollAll(c, updates).Polled? ==> InOrder(c, updates) && PollAll(c, updates).next == NextAfter(c, updates)
  {
    if updates != [] && PollAll(c, updates).Polled? {
      PolledInOrder(c, updates[..|updates| - 1]);
      OneMoreInOrder(c, updates);
    }
  }

  lemma {:induction false} OrderIsPolled(c: Cursor, updates: seq<Update>)
    requires InOrder(c, updates)
    ensures PollAll(c, updates).Polled?
  {
    if updates != [] {
      OrderIsPolled(c, updates[..|updates| - 1]);
      PolledInOrder(c, updates[..|updates| - 1]);
    }
  }

  lemma {:induction false} PolledEvents(c: Cursor, updates: seq<Update>)
    requires PollAll(c, updates).Polled?
    ensures var events := PollAll(c, updates).events;
      |events| == |updates| && forall i :: 0 <= i < |events| ==> Some(events[i]) == Normalize(updates[i], c.epoch)
  {
    if updates != [] {
      PolledEvents(c, updates[..|updates| - 1]);
    }
  }

  lemma NextWithinRange(c: Cursor, updates: seq<Update>)
    requires InOrder(c, updates)
    ensures c.next <= NextAfter(c, updates) && (c.next <= MAX_ID ==> NextAfter(c, updates) <= MAX_ID)
  {
  }

  /** An answer is taken exactly when it is in order, and then event by event with the cursor just past the last id. */
  lemma PollTakesOrdered(c: Cursor, updates: seq<Update>)
    ensures PollAll(c, updates).Polled? <==> InOrder(c, updates)
    ensures var p := PollAll(c, updates);
      p.Polled? ==>
        && |p.events| == |updates| && p.next == NextAfter(c, updates) && c.next <= p.next
        && (forall i :: 0 <= i < |updates| ==> Some(p.events[i]) == Normalize(updates[i], c.epoch))
        && (c.next <= MAX_ID ==> p.next <= MAX_ID)
  {
    PolledInOrder(c, updates);
    if InOrder(c, updates) {
      OrderIsPolled(c, updates);
      PolledEvents(c, updates);
      NextWithinRange(c, updates);
    }
  }

  /**
   * The first update that does not fit decides why an answer is refused: it is unreadable, it does not rise, or it has the
   * last id.
   */
  lemma FirstBadDecides(c: Cursor, updates: seq<Update>, n: nat)
    requires n < |updates| && InOrder(c, updates[..n]) && !InOrder(c, updates[..n + 1])
    ensures var u := updates[n];
      PollAll(c, updates)
      == PollFailed(if Normalize(u, c.epoch).None? then MalformedUpdate
                    else if u.id < NextAfter(c, updates[..n]) then EpochReview else LastId)
  {
    var upTo := updates[..n + 1];
    assert upTo[..n] == updates[..n];
    PollTakesOrdered(c, updates[..n]);
    PollTakesOrdered(c, upTo);
    FirstFailureStands(c, updates, n + 1);
  }

  // ----- the loop

  const MINUTE := 60000

  const SEVEN_DAYS := 168 * HOUR

  /** A passing failure is retried; otherwise the platform answered, and the admission reads the clock. */
  datatype Reply = Retry | Answered(updates: seq<Update>, clock: int)

  /** One turn of the loop: the time it starts, what it gets, and the time it got it. */
  datatype Answer = Answer(now: int, reply: Reply, done: int)

  datatype Stop = CursorReview | PollStop(error: PollError) | AdmissionStop(cause: Error)

  /** The database, what the loop holds in memory, and why the loop ended, if it has. */
  datatype Loop = Loop(db: Db, cursor: Cursor, lastContact: int, stop: Option<Stop>)

  /** The clock readings and the remembered contact a start depends on. */
  datatype Launching = Launching(clock: int, contact: int, now: int, started: int)

  predicate ValidCursor(c: Cursor) {
    c.next >= 0 && c.epoch != "" && |c.epoch| <= 256
  }

  /** A contact is recent when it is known, less than seven days old, and not more than a minute ahead. */
  predicate Recent(contact: int, now: int) {
    contact != ZERO_TIME && now - contact < SEVEN_DAYS && contact <= now + MINUTE
  }

  /** Without a stored cursor a fresh epoch is committed first; a used cursor needs a recent contact. */
  function Start(o: Options, db: Db, epoch: string, t: Launching): Loop {
    var c := if db.cursor.Some? then db.cursor.value else Cursor(0, epoch);
    var tx := if db.cursor.Some? then Ok(db) else Admission.AcceptTelegramBatch(o, db, [], 0, epoch, t.clock);
    if tx.Err? then Loop(db, c, t.started, Some(AdmissionStop(tx.error)))
    else if !ValidCursor(c) then Loop(tx.value, c, t.started, Some(AdmissionStop(Conflict)))
    else if c.next > 0 && !Recent(t.contact, t.now) then Loop(tx.value, c, t.started, Some(CursorReview))
    else Loop(tx.value, c, t.started, None)
  }

  function Turn(o: Options, l: Loop, a: Answer): Loop {
    if l.stop.Some? then l
    else if a.now - l.lastContact >= SEVEN_DAYS then l.(stop := Some(CursorReview))
    else if a.reply.Retry? then l
    else
      var p := PollAnswer(l.cursor, a.reply.updates);
      if p.PollFailed? then l.(stop := Some(PollStop(p.error)))
      else if p.events == [] then l.(lastContact := a.done)
      else
        var tx := Admission.AcceptTelegramBatch(o, l.db, p.events, p.next, l.cursor.epoch, a.reply.clock);
        if tx.Err? then l.(lastContact := a.done, stop := Some(AdmissionStop(tx.error)))
        else Loop(tx.value, l.cursor.(next := p.next), a.done, None)
  }

  function Turns(o: Options, l: Loop, answers: seq<Answer>): Loop {
    if answers == [] then l else Turn(o, Turns(o, l, answers[..|answers| - 1]), answers[|answers| - 1])
  }

  /**
   * The loop starts exactly with a well-formed cursor, stored or committed fresh, and after a first update only if the last
   * contact is known, less than seven days old and at most a minute ahead of the clock.
   */
  lemma StartsExactlyWhen(o: Options, db: Db, epoch: string, t: Launching)
    ensures Start(o, db, epoch, t).stop.None? <==>
              if db.cursor.None? then 0 < |epoch| <= 256 && o.maxInboxCount >= 0
              else
                var c := db.cursor.value;
                && c.next >= 0 && 0 < |c.epoch| <= 256
                && (c.next > 0 ==> t.contact != ZERO_TIME && t.now - t.contact < 604800000 && t.contact <= t.now + 60000)
    ensures Start(o, db, epoch, t).stop.None? ==>
              Start(o, db, epoch, t)
              == if db.cursor.Some? then Loop(db, db.cursor.value, t.started, None)
                 else Loop(db.(cursor := Some(Cursor(0, epoch))), Cursor(0, epoch), t.started, None)
  {
  }

  /**
   * A running turn stops after seven days without contact, waits out a passing failure unchanged, stops at an answer it
   * cannot read, remembers the contact of an empty answer, and commits any other with its events and cursor or stops.
   */
  lemma TurnIsDecided(o: Options, l: Loop, a: Answer)
    requires l.stop.None?
    ensures var r := Turn(o, l, a);
      if a.now - l.lastContact >= 604800000 then r == l.(stop := Some(CursorReview))
      else if a.reply == Retry then r == l
      else
        var p := PollAll(l.cursor, a.reply.updates);
        if |a.reply.updates| > 100 then r == l.(stop := Some(PollStop(MalformedAnswer)))
        else if p.PollFailed? then r == l.(stop := Some(PollStop(p.error)))
        else if a.reply.updates == [] then r == l.(lastContact := a.done)
        else
          var tx := Admission.AcceptTelegramBatch(o, l.db, p.events, p.next, l.cursor.epoch, a.reply.clock);
          r == if tx.Ok? then Loop(tx.value, l.cursor.(next := p.next), a.done, None)
               else l.(lastContact := a.done, stop := Some(AdmissionStop(tx.error)))
  {
    if a.reply.Answered? {
      PollTakesOrdered(l.cursor, a.reply.updates);
    }
  }

  lemma {:induction false} StoppedStays(o: Options, l: Loop, answers: seq<Answer>, n: nat)
    requires n <= |answers| && Turns(o, l, answers[..n]).stop.Some?
    ensures Turns(o, l, answers) == Turns(o, l, answers[..n])
  {
    if n == |answers| {
      assert answers[..n] == answers;
    } else {
      var rest := answers[..|answers| - 1];
      assert rest[..n] == answers[..n];
      StoppedStays(o, l, rest, n);
    }
  }

  /** While the loop runs, the cursor it holds is the stored one, whatever it was answered. */
  lemma {:induction false} LoopHoldsStoredCursor(o: Options, db: Db, epoch: string, t: Launching, answers: seq<Answer>)
    ensures var l := Turns(o, Start(o, db, epoch, t), answers);
      l.stop.None? ==> l.db.cursor == Some(l.cursor) && ValidCursor(l.cursor)
  {
    if answers != [] {
      LoopHoldsStoredCursor(o, db, epoch, t, answers[..|answers| - 1]);
    }
  }

  method RunPolling(store: Store, epoch: string, t: Launching, answers: seq<Answer>)
    returns (cursor: Cursor, lastContact: int, stop: Option<Stop>)
    modifies store`db
    ensures Loop(store.db, cursor, lastContact, stop)
            == Turns(store.options, Start(store.options, old(store.db), epoch, t), answers)
  {
    ghost var start := Start(store.options, store.db, epoch, t);
    stop, lastContact := None, t.started;
    if store.db.cursor.Some? {
      cursor := store.db.cursor.value;
    } else {
      cursor := Cursor(0, epoch);
      var r := store.AcceptTelegramBatch([], 0, epoch, t.clock);
      if r.Err? {
        stop := Some(AdmissionStop(r.error));
      }
    }
    if stop.None? && !ValidCursor(cursor) {
      stop := Some(AdmissionStop(Conflict));
    } else if stop.None? && cursor.next > 0 && !Recent(t.contact, t.now) {
      stop := Some(CursorReview);
    }
    assert Loop(store.db, cursor, lastContact, stop) == start;
    assert answers[..0] == [];
    for i := 0 to |answers|
      invariant Loop(store.db, cursor, lastContact, stop) == Turns(store.options, start, answers[..i])
    {
      if stop.Some? {
        StoppedStays(store.options, start, answers, i);
        return;
      }
      assert answers[..i + 1][..i] == answers[..i];
      if answers[i].now - lastContact >= SEVEN_DAYS {
        stop := Some(CursorReview);
      } else if answers[i].reply.Answered? {
        var p := Poll(cursor, answers[i].reply.updates);
        if p.PollFailed? {
          stop := Some(PollStop(p.error));
        } else {
          lastContact := answers[i].done;
          if p.events != [] {
            var r := store.AcceptTelegramBatch(p.events, p.next, cursor.epoch, answers[i].reply.clock);
            if r.Err? {
              stop := Some(AdmissionStop(r.error));
            } else {
              cursor := cursor.(next := p.next);
            }
          }
        }
      }
    }
    assert answers[..|answers|] == answers;
  }
}
