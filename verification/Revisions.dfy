/** The version order of a message: what a revision must beat, and what becomes of a stale one. */
module Revisions {
  import opened Prelude
  import opened Domain
  import opened Database
  import opened InboxWork
  import opened Planning
  import opened Keys

  /**
   * An accepted revision lowers the order of its message exactly when it is an order-0 version of another kind:
   * order 0 skips the comparison between kinds.
   */
  lemma AcceptedOrderDrops(db: Db, e: Event, p: nat)
    requires p < |db.parts| && db.parts[p].message < |db.messages| && e.Valid()
    requires ApplyRevision(db, e, p).Ok? && !ApplyRevision(db, e, p).value.suppress
    ensures var m, b := db.parts[p].message, ApplyRevision(db, e, p).value.db;
      && |b.messages| == |db.messages| && b.messages[m].version == e.version && b.messages[m].text == e.text
      && (b.messages[m].version.order < db.messages[m].version.order <==>
            e.version.kind != db.messages[m].version.kind && e.version.order == 0 && db.messages[m].version.order > 0)
      && (e.version.order > 0 && db.messages[m].version.order > 0 ==>
            b.messages[m].version.order > db.messages[m].version.order)
  {
  }

  // ----- one plan

  datatype PlanCall = PlanCall(e: Event, id: int, token: nat, ds: seq<Delivery>, timers: seq<TimerSpec>, now: int,
                               clocks: Clocks)

  function Plan(o: Options, db: Db, c: PlanCall): Result<Db> {
    PlanEvent(o, db, c.e, c.id, c.token, c.ds, c.timers, c.now, c.clocks)
  }

  /** Part `p` is the live source part the event is about, and the event creates or edits it. */
  predicate RevisesPart(db: Db, e: Event, p: nat) {
    && e.target.Some? && (e.kind.MessageCreate? || e.kind.MessageEdit?)
    && FindPart(db.parts, RefKey(e.target.value)) == Some(p) && db.parts[p].message < |db.messages|
    && !db.messages[db.parts[p].message].tombstone
  }

  /** A stale event is done without any other effect. */
  lemma StaleEventChangesNothing(o: Options, db: Db, c: PlanCall, p: nat)
    requires RevisesPart(db, c.e, p) && Plan(o, db, c).Ok?
    requires Stale(c.e.version, db.parts[p].version) == Ok(true)
             || Stale(c.e.version, db.messages[db.parts[p].message].version) == Ok(true)
    ensures HasRow(db.inbox, c.id) && Plan(o, db, c).value == ReleaseInbox(db, c.id, InboxDone, db.inbox[c.id].availableAt)
  {
  }

  lemma PlanKeepsSources(o: Options, db: Db, c: PlanCall)
    requires Plan(o, db, c).Ok?
    ensures var a := ApplyEvent(db, c.e, c.ds, Fence(c.now, c.clocks.first)).value;
      Plan(o, db, c).value.messages == a.db.messages && Plan(o, db, c).value.parts == a.db.parts
  {
    var fenced := Fence(c.now, c.clocks.first);
    PlanWorkFrame(o, ApplyEvent(db, c.e, c.ds, fenced).value, c.id, c.ds, c.timers, fenced);
  }
}
