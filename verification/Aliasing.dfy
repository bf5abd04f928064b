/** When two events in work may name one message: never at a claim, and later only through a completion that links them. */
module Aliasing {
  import opened Prelude
  import opened Domain
  import opened Database
  import opened InboxWork
  import opened Planning
  import opened Deliveries
  import opened Queues
  import opened Evolution
  import opened Steps
  import opened Integrity
  import opened Keys
  import opened Effects

  /** No two leased events name the same message, directly or as parts of it. */
  predicate AliasFree(db: Db) {
    forall i, j :: 0 <= i < j < |db.inbox| && db.inbox[i].state.InboxLeased? && db.inbox[j].state.InboxLeased? ==>
      !Aliases(db.parts, db.inbox[i].target, db.inbox[j].target)
  }

  lemma AliasesSymmetric(parts: seq<Part>, a: TargetKey, b: TargetKey)
    ensures Aliases(parts, a, b) <==> Aliases(parts, b, a)
  {
  }

  lemma ClaimKeepsAliasFree(db: Db, i: nat, lease: Lease, now: int)
    requires i < |db.inbox| && InboxEligible(db, i, now)
    ensures AliasFree(db) ==> AliasFree(LeaseInbox(db, i, lease))
  {
    var b := LeaseInbox(db, i, lease);
    if AliasFree(db) {
      forall j, k | 0 <= j < k < |b.inbox| && b.inbox[j].state.InboxLeased? && b.inbox[k].state.InboxLeased?
        ensures !Aliases(b.parts, b.inbox[j].target, b.inbox[k].target)
      {
        AliasesSymmetric(db.parts, db.inbox[j].target, db.inbox[k].target);
      }
    }
  }

  /** A claimed event is the least due one that is no alias of any leased event. */
  lemma ClaimExcludesAliases(db: Db, token: nat, now: int, ttl: int, clock: int)
    requires ClaimInbox(db, token, now, ttl, clock).Ok?
    ensures var c := ClaimInbox(db, token, now, ttl, clock).value;
      && c.id < |db.inbox| && db.inbox[c.id].state.InboxPending? && db.inbox[c.id].availableAt <= Fence(now, clock)
      && (forall j :: 0 <= j < |db.inbox| && db.inbox[j].state.InboxLeased? ==>
            !Aliases(db.parts, db.inbox[c.id].target, db.inbox[j].target))
      && (forall i :: 0 <= i < c.id && db.inbox[i].state.InboxPending? && db.inbox[i].availableAt <= Fence(now, clock) ==>
            exists j :: 0 <= j < |db.inbox| && db.inbox[j].state.InboxLeased?
                        && Aliases(db.parts, db.inbox[i].target, db.inbox[j].target))
      && (AliasFree(db) ==> AliasFree(c.db))
  {
    var next := NextInbox(db, Fence(now, clock)).value;
    forall i | 0 <= i < next && db.inbox[i].state.InboxPending? && db.inbox[i].availableAt <= Fence(now, clock)
      ensures exists j :: 0 <= j < |db.inbox| && db.inbox[j].state.InboxLeased?
                          && Aliases(db.parts, db.inbox[i].target, db.inbox[j].target)
    {
      assert !InboxEligible(db, i, Fence(now, clock));
    }
    ClaimKeepsAliasFree(db, next, Lease(token, Fence(now, clock) + ttl), Fence(now, clock));
  }

  // ----- steps other than a completion

  /** Every part of `b` is an old one, under its old identity, or stands alone in a message of its own. */
  predicate NoNewSiblings(a: Db, b: Db) {
    && PartsGrow(a.parts, b.parts)
    && (forall p, q :: |a.parts| <= p < |b.parts| && 0 <= q < |b.parts| && b.parts[q].message == b.parts[p].message ==> q == p)
  }

  predicate NoNewLeases(a: Db, b: Db) {
    forall i :: 0 <= i < |b.inbox| && b.inbox[i].state.InboxLeased? ==>
      i < |a.inbox| && a.inbox[i].state.InboxLeased? && a.inbox[i].target == b.inbox[i].target
  }

  lemma NoNewAliases(a: Db, b: Db, s: TargetKey, t: TargetKey)
    requires NoNewSiblings(a, b) && Aliases(b.parts, s, t)
    ensures Aliases(a.parts, s, t)
  {
    if s != t {
      var p, q :| 0 <= p < |b.parts| && 0 <= q < |b.parts| && b.parts[p].message == b.parts[q].message
                  && RefTarget(b.parts[p].key) == s && RefTarget(b.parts[q].key) == t;
      assert p < |a.parts| && q < |a.parts|;
      assert PartGrows(a.parts[p], b.parts[p]) && PartGrows(a.parts[q], b.parts[q]);
    }
  }

  lemma StaysAliasFree(a: Db, b: Db)
    requires AliasFree(a) && NoNewSiblings(a, b) && NoNewLeases(a, b)
    ensures AliasFree(b)
  {
    forall i, j | 0 <= i < j < |b.inbox| && b.inbox[i].state.InboxLeased? && b.inbox[j].state.InboxLeased?
      ensures !Aliases(b.parts, b.inbox[i].target, b.inbox[j].target)
    {
      if Aliases(b.parts, b.inbox[i].target, b.inbox[j].target) {
        NoNewAliases(a, b, b.inbox[i].target, b.inbox[j].target);
      }
    }
  }

  lemma PlanAddsNoSiblings(o: Options, db: Db, s: Step)
    requires Linked(db) && s.PlanStep?
    requires PlanEvent(o, db, s.e, s.id, s.token, s.ds, s.timers, s.now, s.clocks).Ok?
    ensures var b := PlanEvent(o, db, s.e, s.id, s.token, s.ds, s.timers, s.now, s.clocks).value;
      |b.parts| != |db.parts| ==> |b.parts| == |db.parts| + 1 && b.parts[|db.parts|].message == |db.messages|
  {
    var fenced := Fence(s.now, s.clocks.first);
    OnlyCreatesAddParts(db, s.e, s.ds, fenced);
    PlanWorkFrame(o, ApplyEvent(db, s.e, s.ds, fenced).value, s.id, s.ds, s.timers, fenced);
  }

  /** At most one part is new, and it belongs to a message no older part has. */
  predicate OneNewPart(a: Db, b: Db) {
    |b.parts| == |a.parts| || (|b.parts| == |a.parts| + 1 && b.parts[|a.parts|].message == |a.messages|)
  }

  lemma StepAddsOnePart(o: Options, db: Db, token: nat, s: Step)
    requires Linked(db) && !s.CompleteStep?
    ensures OneNewPart(db, After(o, db, token, s))
  {
    if Outcome(o, db, token, s).Ok? {
      if s.PlanStep? {
        PlanAddsNoSiblings(o, db, s);
      } else {
        PartsLength(o, db, token, s);
      }
    }
  }

  lemma OldPartIsElsewhere(a: Db, b: Db, q: nat)
    requires Linked(a) && PartsGrow(a.parts, b.parts) && q < |a.parts|
    ensures b.parts[q].message < |a.messages|
  {
    assert PartLinked(a, a.parts[q]) && PartGrows(a.parts[q], b.parts[q]);
  }

  lemma OneNewPartIsAlone(a: Db, b: Db)
    requires Linked(a) && PartsGrow(a.parts, b.parts) && OneNewPart(a, b)
    ensures NoNewSiblings(a, b)
  {
    forall p, q | |a.parts| <= p < |b.parts| && 0 <= q < |b.parts| && b.parts[q].message == b.parts[p].message ensures q == p {
      if q < |a.parts| {
        OldPartIsElsewhere(a, b, q);
      }
    }
  }

  lemma StepAddsNoSiblings(o: Options, db: Db, token: nat, s: Step)
    requires Linked(db) && !s.CompleteStep?
    ensures NoNewSiblings(db, After(o, db, token, s))
  {
    StepGrows(o, db, token, s);
    StepAddsOnePart(o, db, token, s);
    OneNewPartIsAlone(db, After(o, db, token, s));
  }

  lemma OtherClaimsKeepInbox(o: Options, db: Db, token: nat, s: Step)
    requires (s.ClaimDeliveryStep? || s.ClaimTimerStep?) && Outcome(o, db, token, s).Ok?
    ensures After(o, db, token, s).inbox == db.inbox
  {
  }

  lemma StepAddsNoLeases(o: Options, db: Db, token: nat, s: Step)
    requires LeaseShape(db) && !s.ClaimInboxStep?
    ensures NoNewLeases(db, After(o, db, token, s))
  {
    var b := After(o, db, token, s);
    if Outcome(o, db, token, s).Ok? {
      if ClaimStep(s) {
        OtherClaimsKeepInbox(o, db, token, s);
      } else {
        StepIsQuiet(o, db, token, s);
        StepKeepsShape(o, db, token, s);
        forall i | 0 <= i < |b.inbox| && b.inbox[i].state.InboxLeased?
          ensures i < |db.inbox| && db.inbox[i].state.InboxLeased? && db.inbox[i].target == b.inbox[i].target
        {
          assert InboxShape(b.inbox[i]);
          assert i < |db.inbox| ==> QuietInboxRow(db.inbox[i], b.inbox[i]) && InboxShape(db.inbox[i]);
        }
      }
    }
  }

  // ----- completions

  /** The target is a part of the message, or one of the parts this completion reports for it. */
  predicate NamesMessage(parts: seq<Part>, m: nat, results: seq<DeliveredPart>, t: TargetKey) {
    t.RefTarget? && ((exists p :: 0 <= p < |parts| && parts[p].message == m && parts[p].key == t.key)
                     || (exists k :: 0 <= k < |results| && RefKey(results[k].ref) == t.key))
  }

  /** Two events in work name the completed message, one of them through a part that is only now reported. */
  predicate LinksLeased(db: Db, m: nat, results: seq<DeliveredPart>) {
    exists i, j :: 0 <= i < j < |db.inbox| && db.inbox[i].state.InboxLeased? && db.inbox[j].state.InboxLeased?
                   && NamesMessage(db.parts, m, results, db.inbox[i].target)
                   && NamesMessage(db.parts, m, results, db.inbox[j].target)
  }

  predicate KeysReported(parts: seq<Part>, n: nat, results: seq<DeliveredPart>) {
    forall p :: n <= p < |parts| ==> exists k :: 0 <= k < |results| && RefKey(results[k].ref) == parts[p].key
  }

  lemma LinkPartReports(parts: seq<Part>, m: nat, d: Delivery, r: DeliveredPart, version: SourceVersion, tombstone: bool)
    requires LinkPart(parts, m, d, r, version, tombstone).Ok?
    ensures var b := LinkPart(parts, m, d, r, version, tombstone).value;
      forall p :: |parts| <= p < |b| ==> b[p].key == RefKey(r.ref)
  {
  }

  lemma {:induction false} LinkedKeysReported(parts: seq<Part>, m: nat, d: Delivery, chat: Chat, results: seq<DeliveredPart>,
                                              version: SourceVersion, tombstone: bool)
    requires LinkParts(parts, m, d, chat, results, version, tombstone).Ok?
    ensures KeysReported(LinkParts(parts, m, d, chat, results, version, tombstone).value, |parts|, results)
  {
    if results != [] {
      var n := |results| - 1;
      var before := LinkParts(parts, m, d, chat, results[..n], version, tombstone).value;
      var b := LinkParts(parts, m, d, chat, results, version, tombstone).value;
      LinkedKeysReported(parts, m, d, chat, results[..n], version, tombstone);
      LinkPartGrows(before, m, d, results[n], version, tombstone);
      LinkPartReports(before, m, d, results[n], version, tombstone);
      forall p | |parts| <= p < |b| ensures exists k :: 0 <= k < |results| && RefKey(results[k].ref) == b[p].key {
        if p < |before| {
          assert PartGrows(before[p], b[p]);
          var k :| 0 <= k < |results[..n]| && RefKey(results[..n][k].ref) == before[p].key;
          assert RefKey(results[k].ref) == b[p].key;
        } else {
          assert RefKey(results[n].ref) == b[p].key;
        }
      }
    }
  }

  lemma CompletedKeysReported(parts: seq<Part>, m: nat, d: Delivery, chat: Chat, c: Completion, tombstone: bool)
    requires CompletedParts(parts, m, d, chat, c, tombstone).Ok?
    ensures KeysReported(CompletedParts(parts, m, d, chat, c, tombstone).value, |parts|, c.parts)
  {
    var linked := LinkParts(parts, m, d, chat, c.parts, c.version, tombstone).value;
    var b := CompletedParts(parts, m, d, chat, c, tombstone).value;
    LinkedKeysReported(parts, m, d, chat, c.parts, c.version, tombstone);
    AcknowledgeTargetFrame(linked, m, d, c.version, tombstone);
    AfterLinking(linked, m, d, c.version, tombstone);
    forall p | |parts| <= p < |b| ensures exists k :: 0 <= k < |c.parts| && RefKey(c.parts[k].ref) == b[p].key {
      assert PartGrows(linked[p], b[p]);
    }
  }

  predicate KeyOf(parts: seq<Part>, m: nat, key: Key) {
    exists p :: 0 <= p < |parts| && parts[p].message == m && parts[p].key == key
  }

  /** What a completion does to the identities of a message: its parts are the old ones and the reported ones. */
  predicate Reports(a: Db, b: Db, m: nat, results: seq<DeliveredPart>) {
    && b.inbox == a.inbox && PartsGrow(a.parts, b.parts) && OthersUntouched(a.parts, b.parts, m)
    && KeysReported(b.parts, |a.parts|, results)
    && forall k :: 0 <= k < |results| ==> KeyOf(b.parts, m, RefKey(results[k].ref))
  }

  lemma OldPairAliases(a: seq<Part>, b: seq<Part>, p: nat, q: nat)
    requires PartsGrow(a, b) && p < |a| && q < |a| && b[p].message == b[q].message
    ensures Aliases(a, RefTarget(b[p].key), RefTarget(b[q].key))
  {
    assert PartGrows(a[p], b[p]) && PartGrows(a[q], b[q]);
  }

  lemma PartNamesMessage(a: Db, b: Db, m: nat, results: seq<DeliveredPart>, p: nat)
    requires Reports(a, b, m, results) && p < |b.parts| && b.parts[p].message == m
    ensures NamesMessage(a.parts, m, results, RefTarget(b.parts[p].key))
  {
    if p < |a.parts| {
      assert PartGrows(a.parts[p], b.parts[p]);
    }
  }

  lemma NewAliasNamesMessage(a: Db, b: Db, m: nat, results: seq<DeliveredPart>, s: TargetKey, t: TargetKey)
    requires Reports(a, b, m, results) && Aliases(b.parts, s, t) && !Aliases(a.parts, s, t)
    ensures NamesMessage(a.parts, m, results, s) && NamesMessage(a.parts, m, results, t)
  {
    var p, q :| 0 <= p < |b.parts| && 0 <= q < |b.parts| && b.parts[p].message == b.parts[q].message
                && RefTarget(b.parts[p].key) == s && RefTarget(b.parts[q].key) == t;
    if p < |a.parts| && q < |a.parts| {
      OldPairAliases(a.parts, b.parts, p, q);
    }
    PartNamesMessage(a, b, m, results, p);
    PartNamesMessage(a, b, m, results, q);
  }

  lemma NamedIsKey(a: Db, b: Db, m: nat, results: seq<DeliveredPart>, t: TargetKey)
    requires Reports(a, b, m, results) && NamesMessage(a.parts, m, results, t)
    ensures t.RefTarget? && KeyOf(b.parts, m, t.key)
  {
    if exists p :: 0 <= p < |a.parts| && a.parts[p].message == m && a.parts[p].key == t.key {
      var p :| 0 <= p < |a.parts| && a.parts[p].message == m && a.parts[p].key == t.key;
      assert PartGrows(a.parts[p], b.parts[p]);
    }
  }

  lemma NamedAlias(a: Db, b: Db, m: nat, results: seq<DeliveredPart>, s: TargetKey, t: TargetKey)
    requires Reports(a, b, m, results) && NamesMessage(a.parts, m, results, s) && NamesMessage(a.parts, m, results, t)
    ensures Aliases(b.parts, s, t)
  {
    NamedIsKey(a, b, m, results, s);
    NamedIsKey(a, b, m, results, t);
  }

  lemma ReportCondition(a: Db, b: Db, m: nat, results: seq<DeliveredPart>)
    requires AliasFree(a) && Reports(a, b, m, results)
    ensures AliasFree(b) <==> !LinksLeased(a, m, results)
  {
    if LinksLeased(a, m, results) {
      var i, j :| 0 <= i < j < |a.inbox| && a.inbox[i].state.InboxLeased? && a.inbox[j].state.InboxLeased?
                  && NamesMessage(a.parts, m, results, a.inbox[i].target)
                  && NamesMessage(a.parts, m, results, a.inbox[j].target);
      NamedAlias(a, b, m, results, a.inbox[i].target, a.inbox[j].target);
    } else {
      forall i, j | 0 <= i < j < |b.inbox| && b.inbox[i].state.InboxLeased? && b.inbox[j].state.InboxLeased?
        ensures !Aliases(b.parts, b.inbox[i].target, b.inbox[j].target)
      {
        if Aliases(b.parts, b.inbox[i].target, b.inbox[j].target) {
          NewAliasNamesMessage(a, b, m, results, b.inbox[i].target, b.inbox[j].target);
        }
      }
    }
  }

  lemma CompletionReports(o: Options, db: Db, id: int, token: nat, c: Completion, now: int, clocks: Clocks)
    requires CompleteDelivery(o, db, id, token, c, now, clocks).Ok?
    ensures HasRow(db.outbox, id) && db.outbox[id].payload.message.Some?
    ensures HasRow(db.messages, db.outbox[id].payload.message.value)
    ensures Reports(db, CompleteDelivery(o, db, id, token, c, now, clocks).value, db.outbox[id].payload.message.value, c.parts)
  {
    var b := CompleteDelivery(o, db, id, token, c, now, clocks).value;
    CompletionRecords(o, db, id, token, c, now, clocks);
    CompleteDeliveryGrows(o, db, id, token, c, now, clocks);
    var m := CompletionShape(db, id, c).value;
    CompletedKeysReported(db.parts, m, db.outbox[id].payload, db.chats[db.outbox[id].chat], c, db.messages[m].tombstone);
    forall k | 0 <= k < |c.parts| ensures KeyOf(b.parts, m, RefKey(c.parts[k].ref)) {
      assert Recorded(b.parts, m, c.parts[k], db.messages[m].tombstone);
      var p :| 0 <= p < |b.parts| && RecordsPart(b.parts[p], m, c.parts[k], db.messages[m].tombstone);
    }
  }

  /**
   * Alias exclusion between leased events is kept by every step but a completion, and a completion breaks it exactly when
   * two leased events name its message, as parts it has or as parts the completion reports.
   */
  lemma StepKeepsAliasFree(o: Options, db: Db, token: nat, s: Step)
    requires LeaseShape(db) && Linked(db) && AliasFree(db)
    ensures s.CompleteStep? && Outcome(o, db, token, s).Ok? ==>
              HasRow(db.outbox, s.id) && db.outbox[s.id].payload.message.Some? && db.outbox[s.id].payload.message.value >= 0
    ensures AliasFree(After(o, db, token, s)) <==>
              !(s.CompleteStep? && Outcome(o, db, token, s).Ok?
                && LinksLeased(db, db.outbox[s.id].payload.message.value, s.c.parts))
  {
    if s.CompleteStep? {
      if CompleteDelivery(o, db, s.id, s.token, s.c, s.now, s.clocks).Ok? {
        CompletionReports(o, db, s.id, s.token, s.c, s.now, s.clocks);
        ReportCondition(db, After(o, db, token, s), db.outbox[s.id].payload.message.value, s.c.parts);
      }
    } else if s.ClaimInboxStep? {
      if ClaimInbox(db, token, s.now, s.ttl, s.clock).Ok? {
        ClaimExcludesAliases(db, token, s.now, s.ttl, s.clock);
      }
    } else {
      StepAddsNoSiblings(o, db, token, s);
      StepAddsNoLeases(o, db, token, s);
      StaysAliasFree(db, After(o, db, token, s));
    }
  }
}
