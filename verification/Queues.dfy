/**
 * How transactions may move rows of the three work queues. Every transaction except the three claims is quiet: it
 * leases nothing, and it moves existing rows only along the arrows below. Scheduling, fencing and the two-phase send
 * follow from quietness and from what a claim checks.
 */
module Queues {
  import opened Prelude
  import opened Database
  import opened InboxWork
  import opened Deliveries

  // ----- outbox rows

  /** Everything of a row that no transaction changes. */
  predicate SameIntentRow(r: OutboxRow, s: OutboxRow) {
    s.(state := r.state, availableAt := r.availableAt, lease := r.lease, startedAt := r.startedAt,
       errorClass := r.errorClass) == r
  }

  predicate Open(r: OutboxRow) {
    r.state.Pending? || r.state.Leased? || r.state.Sending?
  }

  predicate Finished(r: OutboxRow) {
    r.state.Succeeded? || r.state.Dead? || r.state.Superseded?
  }

  predicate Arrow(from: OutboxState, to: OutboxState) {
    match from
    case Pending => to.Pending? || to.Superseded?
    case Leased => !to.Succeeded?
    case Sending => !to.Pending? && !to.Leased? && !to.Superseded?
    case _ => to == from
  }

  /** A lease is held exactly while leased or sending, and a send start is recorded exactly from then on. */
  predicate OutboxShape(r: OutboxRow) {
    && (r.lease.Some? <==> r.state.Leased? || r.state.Sending?)
    && (r.startedAt.Some? ==> !r.state.Pending? && !r.state.Leased? && !r.state.Superseded?)
    && (r.state.Sending? || r.state.Succeeded? ==> r.startedAt.Some?)
  }

  predicate QuietRow(r: OutboxRow, s: OutboxRow) {
    && SameIntentRow(r, s) && Arrow(r.state, s.state) && (!Open(r) ==> s == r)
    && (s.lease.Some? ==> s.lease == r.lease)
    && (r.startedAt.Some? ==> s.startedAt == r.startedAt)
    && (r.startedAt.None? && s.startedAt.Some? ==> r.state.Leased? && s.state.Sending?)
    && (s.state.Superseded? && !r.state.Superseded? ==> r.startedAt.None? && r.operation.Additive())
    && (OutboxShape(r) ==> OutboxShape(s))
  }

  predicate FreshRow(r: OutboxRow) {
    r.state.Pending? && r.lease.None? && r.startedAt.None?
  }

  predicate QuietOutbox(a: seq<OutboxRow>, b: seq<OutboxRow>) {
    && |a| <= |b| && (forall i :: 0 <= i < |a| ==> QuietRow(a[i], b[i]))
    && (forall i :: |a| <= i < |b| ==> FreshRow(b[i]))
  }

  // ----- inbox rows and timers

  predicate InboxShape(r: InboxRow) {
    r.lease.Some? <==> r.state.InboxLeased?
  }

  predicate QuietInboxRow(r: InboxRow, s: InboxRow) {
    && s.(state := r.state, availableAt := r.availableAt, lease := r.lease) == r
    && (s.lease.Some? ==> s.lease == r.lease)
    && (!r.state.InboxLeased? ==> s == r) && (InboxShape(r) ==> InboxShape(s))
  }

  predicate QuietInbox(a: seq<InboxRow>, b: seq<InboxRow>) {
    && |a| <= |b| && (forall i :: 0 <= i < |a| ==> QuietInboxRow(a[i], b[i]))
    && (forall i :: |a| <= i < |b| ==> b[i].lease.None? && (b[i].state.InboxPending? || b[i].state.Quarantined?))
  }

  predicate TimerShape(t: Timer) {
    t.lease.Some? <==> t.state.TimerLeased?
  }

  predicate QuietTimer(r: Timer, s: Timer) {
    && s.(state := r.state, lease := r.lease) == r
    && (s.lease.Some? ==> s.lease == r.lease)
    && (r.state.TimerPending? ==> s.state.TimerPending? || s.state.TimerCancelled?)
    && (r.state.TimerDone? || r.state.TimerCancelled? ==> s == r) && (TimerShape(r) ==> TimerShape(s))
  }

  predicate QuietTimers(a: seq<Timer>, b: seq<Timer>) {
    && |a| <= |b| && (forall i :: 0 <= i < |a| ==> QuietTimer(a[i], b[i]))
    && (forall i :: |a| <= i < |b| ==> b[i].lease.None? && b[i].state.TimerPending?)
  }

  predicate Quiet(a: Db, b: Db) {
    QuietOutbox(a.outbox, b.outbox) && QuietInbox(a.inbox, b.inbox) && QuietTimers(a.timers, b.timers)
  }

  /** Every row holds a lease exactly while a worker may act on it. */
  predicate LeaseShape(db: Db) {
    && (forall i :: 0 <= i < |db.outbox| ==> OutboxShape(db.outbox[i]))
    && (forall i :: 0 <= i < |db.inbox| ==> InboxShape(db.inbox[i]))
    && (forall i :: 0 <= i < |db.timers| ==> TimerShape(db.timers[i]))
  }

  // ----- scheduling

  /**
   * A row in flight or ever started has overtaken nothing: its dependency has succeeded, and every earlier row of its
   * message, and of its chat when one of the two has no message, is finished. So two such rows are never in flight together.
   */
  predicate Schedule(outbox: seq<OutboxRow>) {
    forall j :: 0 <= j < |outbox|
                && (outbox[j].state.Leased? || outbox[j].state.Sending? || outbox[j].state.Uncertain?
                    || outbox[j].startedAt.Some?) ==>
      && (outbox[j].dependsOn.Some? ==>
            outbox[j].dependsOn.value < |outbox| && outbox[outbox[j].dependsOn.value].state.Succeeded?)
      && forall i :: 0 <= i < j
                     && ((outbox[j].message.Some? && outbox[i].message == outbox[j].message)
                         || (outbox[i].chat == outbox[j].chat && (outbox[i].message.None? || outbox[j].message.None?))) ==>
           outbox[i].state.Succeeded? || outbox[i].state.Dead? || outbox[i].state.Superseded?
  }

  lemma QuietKeepsSchedule(a: seq<OutboxRow>, b: seq<OutboxRow>)
    requires Schedule(a) && QuietOutbox(a, b)
    ensures Schedule(b)
  {
    forall j | 0 <= j < |b| && (Busy(b[j]) || b[j].startedAt.Some?)
      ensures j < |a| && (Busy(a[j]) || a[j].startedAt.Some?) && SameIntentRow(a[j], b[j]) && DependencyMet(b, b[j])
      ensures forall i :: 0 <= i < j && Conflicting(a[i], a[j]) ==> b[i] == a[i]
    {
      assert j < |a| ==> QuietRow(a[j], b[j]);
      if b[j].dependsOn.Some? {
        assert QuietRow(a[b[j].dependsOn.value], b[b[j].dependsOn.value]);
      }
      forall i | 0 <= i < j && Conflicting(a[i], a[j]) ensures b[i] == a[i] {
        assert QuietRow(a[i], b[i]);
      }
    }
  }

  lemma ClaimKeepsSchedule(db: Db, i: nat, lease: Lease, now: int)
    requires Schedule(db.outbox) && i < |db.outbox| && Eligible(db, i, now)
    ensures Schedule(LeaseDelivery(db, i, lease).outbox)
  {
    var a, b := db.outbox, LeaseDelivery(db, i, lease).outbox;
    forall k | 0 <= k < |b| && (Busy(b[k]) || b[k].startedAt.Some?)
      ensures DependencyMet(b, b[k]) && forall j :: 0 <= j < k && Conflicting(b[j], b[k]) ==> Finished(b[j])
    {
      forall j | 0 <= j < k && Conflicting(b[j], b[k]) ensures Finished(b[j]) {
        assert Conflicting(a[j], a[k]) && (k == i ==> !Unsettled(a[j]));
      }
    }
  }

  /** No two events with one target are in work together. */
  predicate InboxExclusive(inbox: seq<InboxRow>) {
    forall i, j :: 0 <= i < j < |inbox| && inbox[i].state.InboxLeased? && inbox[j].state.InboxLeased? ==>
      inbox[i].target != inbox[j].target
  }

  lemma QuietKeepsExclusive(a: seq<InboxRow>, b: seq<InboxRow>)
    requires InboxExclusive(a) && QuietInbox(a, b)
    ensures InboxExclusive(b)
  {
    forall i | 0 <= i < |b| && b[i].state.InboxLeased?
      ensures i < |a| && a[i].state.InboxLeased? && a[i].target == b[i].target
    {
      assert i < |a| ==> QuietInboxRow(a[i], b[i]);
    }
  }

  lemma ClaimKeepsExclusive(db: Db, i: nat, lease: Lease, now: int)
    requires InboxExclusive(db.inbox) && i < |db.inbox| && InboxEligible(db, i, now)
    ensures InboxExclusive(LeaseInbox(db, i, lease).inbox)
  {
  }

  // ----- composing row changes

  lemma QuietThenAppend(a: seq<OutboxRow>, b: seq<OutboxRow>, c: seq<OutboxRow>)
    requires QuietOutbox(a, b) && b <= c && forall i :: |b| <= i < |c| ==> FreshRow(c[i])
    ensures QuietOutbox(a, c)
  {
  }

  lemma AppendThenQuiet(a: seq<OutboxRow>, b: seq<OutboxRow>, c: seq<OutboxRow>)
    requires a <= b && QuietOutbox(b, c) && forall i :: |a| <= i < |c| ==> FreshRow(c[i])
    ensures QuietOutbox(a, c)
  {
    forall i | 0 <= i < |a| ensures QuietRow(a[i], c[i]) {
      assert QuietRow(b[i], c[i]);
    }
  }

  lemma QuietKeepsShape(a: Db, b: Db)
    requires LeaseShape(a) && Quiet(a, b)
    ensures LeaseShape(b)
  {
    forall i | 0 <= i < |b.outbox| ensures OutboxShape(b.outbox[i]) {
      assert i < |a.outbox| ==> QuietRow(a.outbox[i], b.outbox[i]);
    }
    forall i | 0 <= i < |b.inbox| ensures InboxShape(b.inbox[i]) {
      assert i < |a.inbox| ==> QuietInboxRow(a.inbox[i], b.inbox[i]);
    }
    forall i | 0 <= i < |b.timers| ensures TimerShape(b.timers[i]) {
      assert i < |a.timers| ==> QuietTimer(a.timers[i], b.timers[i]);
    }
  }
}
