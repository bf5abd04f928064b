/** What a committed plan, completion or recovery leaves behind, row by row. */
module Effects {
  import opened Prelude
  import opened Domain
  import opened Database
  import opened Admission
  import opened Planning
  import opened Deliveries
  import opened QuietTransactions
  import opened Queues
  import opened Evolution
  import opened Keys
  import opened Revisions

  // ----- completion

  /** Acknowledging never lowers the order of the part's source version and touches no other part. */
  lemma AcknowledgedIsGreater(parts: seq<Part>, m: nat, key: Key, applied: SourceVersion, deleted: bool)
    requires Acknowledge(parts, m, key, applied, deleted).Ok?
    ensures var b := Acknowledge(parts, m, key, applied, deleted).value;
      exists p :: 0 <= p < |parts| && parts[p].message == m && parts[p].key == key && b == parts[p := b[p]]
                  && b[p].(version := parts[p].version, sourceDeleted := parts[p].sourceDeleted) == parts[p]
                  && (b[p].version == applied || b[p].version == parts[p].version)
                  && b[p].version.order == Max(applied.order, parts[p].version.order)
                  && b[p].sourceDeleted == (parts[p].sourceDeleted || deleted)
  {
    var p := FirstIndex(parts, (p: Part) => p.message == m && p.key == key).value;
    var b := Acknowledge(parts, m, key, applied, deleted).value;
    assert b == parts[p := b[p]];
  }

  /** A delivered part as the mapping records it; deletion and retirement only ever add up. */
  predicate RecordsPart(row: Part, m: nat, r: DeliveredPart, tombstone: bool) {
    && row.message == m && row.key == RefKey(r.ref) && row.index == r.index && row.role == r.role && row.owned == r.owned
    && row.caps == r.caps && (r.deleted || tombstone ==> row.deleted && row.sourceDeleted) && (r.retired ==> row.retired)
  }

  predicate Recorded(parts: seq<Part>, m: nat, r: DeliveredPart, tombstone: bool) {
    exists p :: 0 <= p < |parts| && RecordsPart(parts[p], m, r, tombstone)
  }

  /** Old parts of other messages are as they were, and every new part belongs to this message. */
  predicate OthersUntouched(a: seq<Part>, b: seq<Part>, m: nat) {
    && |a| <= |b| && (forall p :: 0 <= p < |a| && a[p].message != m ==> b[p] == a[p])
    && (forall p :: |a| <= p < |b| ==> b[p].message == m)
  }

  lemma GrowthKeepsRecorded(a: seq<Part>, b: seq<Part>, m: nat, r: DeliveredPart, tombstone: bool)
    requires PartsGrow(a, b) && Recorded(a, m, r, tombstone)
    ensures Recorded(b, m, r, tombstone)
  {
    var p :| 0 <= p < |a| && RecordsPart(a[p], m, r, tombstone);
    assert PartGrows(a[p], b[p]) && RecordsPart(b[p], m, r, tombstone);
  }

  lemma AcknowledgesFound(parts: seq<Part>, m: nat, key: Key, version: SourceVersion, deleted: bool)
    requires FindPart(parts, key).Some? && parts[FindPart(parts, key).value].message == m
    requires Acknowledge(parts, m, key, version, deleted).Ok?
    ensures var p, b := FindPart(parts, key).value, Acknowledge(parts, m, key, version, deleted).value;
      b == parts[p := b[p]] && b[p].sourceDeleted == (parts[p].sourceDeleted || deleted)
      && b[p].(version := parts[p].version, sourceDeleted := parts[p].sourceDeleted) == parts[p]
  {
    var p := FirstIndex(parts, (p: Part) => p.message == m && p.key == key).value;
    assert p == FindPart(parts, key).value;
  }

  lemma LinkPartRecords(parts: seq<Part>, m: nat, d: Delivery, r: DeliveredPart, version: SourceVersion, tombstone: bool)
    requires LinkPart(parts, m, d, r, version, tombstone).Ok?
    ensures var b := LinkPart(parts, m, d, r, version, tombstone).value;
      Recorded(b, m, r, tombstone) && OthersUntouched(parts, b, m)
  {
    var b := LinkPart(parts, m, d, r, version, tombstone).value;
    var known := FindPart(parts, RefKey(r.ref));
    if known.Some? {
      AcknowledgedIsGreater(parts, m, RefKey(r.ref), version, r.deleted || tombstone);
      AcknowledgesFound(parts, m, RefKey(r.ref), version, r.deleted || tombstone);
      assert RecordsPart(b[known.value], m, r, tombstone);
    } else {
      assert RecordsPart(b[|parts|], m, r, tombstone);
    }
  }

  lemma OthersTransitive(a: seq<Part>, b: seq<Part>, c: seq<Part>, m: nat)
    requires OthersUntouched(a, b, m) && OthersUntouched(b, c, m) && PartsGrow(a, b) && PartsGrow(b, c)
    ensures OthersUntouched(a, c, m)
  {
    forall p | |a| <= p < |c| ensures c[p].message == m {
      assert p < |b| ==> PartGrows(b[p], c[p]);
    }
    forall p | 0 <= p < |a| && a[p].message != m ensures c[p] == a[p] {
      assert PartGrows(a[p], b[p]);
    }
  }

  lemma OneMoreRecorded(a: seq<Part>, b: seq<Part>, m: nat, results: seq<DeliveredPart>, tombstone: bool)
    requires results != [] && PartsGrow(a, b) && Recorded(b, m, results[|results| - 1], tombstone)
    requires forall r :: r in results[..|results| - 1] ==> Recorded(a, m, r, tombstone)
    ensures forall r :: r in results ==> Recorded(b, m, r, tombstone)
  {
    forall r | r in results ensures Recorded(b, m, r, tombstone) {
      if r in results[..|results| - 1] {
        GrowthKeepsRecorded(a, b, m, r, tombstone);
      }
    }
  }

  lemma {:induction false} LinkPartsRecord(parts: seq<Part>, m: nat, d: Delivery, chat: Chat, results: seq<DeliveredPart>,
                                           version: SourceVersion, tombstone: bool)
    requires LinkParts(parts, m, d, chat, results, version, tombstone).Ok?
    ensures var b := LinkParts(parts, m, d, chat, results, version, tombstone).value;
      OthersUntouched(parts, b, m) && forall r :: r in results ==> Recorded(b, m, r, tombstone)
  {
    if results != [] {
      var n := |results| - 1;
      var before := LinkParts(parts, m, d, chat, results[..n], version, tombstone).value;
      var b := LinkParts(parts, m, d, chat, results, version, tombstone).value;
      LinkPartsRecord(parts, m, d, chat, results[..n], version, tombstone);
      LinkPartRecords(before, m, d, results[n], version, tombstone);
      LinkPartsGrow(parts, m, d, chat, results[..n], version, tombstone);
      LinkPartGrows(before, m, d, results[n], version, tombstone);
      OthersTransitive(parts, before, b, m);
      OneMoreRecorded(before, b, m, results, tombstone);
    }
  }

  lemma AcknowledgeTargetFrame(parts: seq<Part>, m: nat, d: Delivery, version: SourceVersion, tombstone: bool)
    requires AcknowledgeTarget(parts, m, d, version, tombstone).Ok?
    ensures var b := AcknowledgeTarget(parts, m, d, version, tombstone).value;
      PartsGrow(parts, b) && OthersUntouched(parts, b, m) && |b| == |parts|
  {
    if (d.kind.MessageEdit? || d.kind.MessageRevoke?) && d.target.Some? {
      AcknowledgeGrows(parts, m, RefKey(d.target.value), version, d.kind.MessageRevoke? || tombstone);
      AcknowledgedIsGreater(parts, m, RefKey(d.target.value), version, d.kind.MessageRevoke? || tombstone);
    }
  }

  lemma MarkFrame(parts: seq<Part>, m: nat, p: Platform)
    ensures var b := MarkPlatformDeleted(parts, m, p); PartsGrow(parts, b) && OthersUntouched(parts, b, m)
  {
  }

  /** The steps after linking the delivered parts change no part of another message and drop nothing recorded. */
  lemma AfterLinking(linked: seq<Part>, m: nat, d: Delivery, version: SourceVersion, tombstone: bool)
    requires AcknowledgeTarget(linked, m, d, version, tombstone).Ok?
    ensures var acked := AcknowledgeTarget(linked, m, d, version, tombstone).value;
      var b := if d.kind.MessageRevoke? && d.target.Some? then MarkPlatformDeleted(acked, m, d.target.value.platform) else acked;
      PartsGrow(linked, b) && OthersUntouched(linked, b, m)
  {
    var acked := AcknowledgeTarget(linked, m, d, version, tombstone).value;
    AcknowledgeTargetFrame(linked, m, d, version, tombstone);
    if d.kind.MessageRevoke? && d.target.Some? {
      var b := MarkPlatformDeleted(acked, m, d.target.value.platform);
      MarkFrame(acked, m, d.target.value.platform);
      PartsGrowTransitive(linked, acked, b);
      OthersTransitive(linked, acked, b, m);
    }
  }

  /** Every delivered part is recorded, and other messages are untouched. */
  lemma CompletedPartsRecord(parts: seq<Part>, m: nat, d: Delivery, chat: Chat, c: Completion, tombstone: bool)
    requires CompletedParts(parts, m, d, chat, c, tombstone).Ok?
    ensures var b := CompletedParts(parts, m, d, chat, c, tombstone).value;
      OthersUntouched(parts, b, m) && forall r :: r in c.parts ==> Recorded(b, m, r, tombstone)
  {
    var linked := LinkParts(parts, m, d, chat, c.parts, c.version, tombstone).value;
    var b := CompletedParts(parts, m, d, chat, c, tombstone).value;
    LinkPartsRecord(parts, m, d, chat, c.parts, c.version, tombstone);
    LinkPartsGrow(parts, m, d, chat, c.parts, c.version, tombstone);
    AfterLinking(linked, m, d, c.version, tombstone);
    OthersTransitive(parts, linked, b, m);
    forall r | r in c.parts ensures Recorded(b, m, r, tombstone) {
      GrowthKeepsRecorded(linked, b, m, r, tombstone);
    }
  }

  /** A completed revoke deletes every part of the message on its platform. */
  lemma RevokedPlatformIsGone(parts: seq<Part>, m: nat, d: Delivery, chat: Chat, c: Completion, tombstone: bool)
    requires CompletedParts(parts, m, d, chat, c, tombstone).Ok? && d.kind.MessageRevoke? && d.target.Some?
    ensures var b := CompletedParts(parts, m, d, chat, c, tombstone).value;
      forall p :: 0 <= p < |b| && b[p].message == m && b[p].key.platform == d.target.value.platform ==> b[p].deleted
  {
  }

  /**
   * A successful completion records every delivered part under the row's message, leaves other messages and other rows
   * alone, and finishes exactly its own row.
   */
  lemma CompletionRecords(o: Options, db: Db, id: int, token: nat, c: Completion, now: int, clocks: Clocks)
    requires CompleteDelivery(o, db, id, token, c, now, clocks).Ok?
    ensures HasRow(db.outbox, id) && db.outbox[id].payload.message.Some?
    ensures HasRow(db.messages, db.outbox[id].payload.message.value)
    ensures var b, d := CompleteDelivery(o, db, id, token, c, now, clocks).value, db.outbox[id].payload;
      var m := d.message.value;
      && b.outbox == db.outbox[id := db.outbox[id].(state := Succeeded, lease := None)]
      && b == db.(parts := b.parts, echoes := b.echoes, outbox := b.outbox)
      && OthersUntouched(db.parts, b.parts, m)
      && (forall r :: r in c.parts ==> Recorded(b.parts, m, r, db.messages[m].tombstone))
      && (d.kind.MessageRevoke? && d.target.Some? ==>
            forall p :: 0 <= p < |b.parts| && b.parts[p].message == m && b.parts[p].key.platform == d.target.value.platform
                        ==> b.parts[p].deleted)
  {
    var m := CompletionShape(db, id, c).value;
    var d, chat := db.outbox[id].payload, db.chats[db.outbox[id].chat];
    CompletedPartsRecord(db.parts, m, d, chat, c, db.messages[m].tombstone);
    if d.kind.MessageRevoke? && d.target.Some? {
      RevokedPlatformIsGone(db.parts, m, d, chat, c, db.messages[m].tombstone);
    }
    RecordResultFrame(db, id, c);
  }

  // ----- planning

  /** The intent has its row: this plan's own, or an identical one from before. */
  predicate Stored(outbox: seq<OutboxRow>, d: Delivery, message: Option<nat>) {
    exists i :: 0 <= i < |outbox| && outbox[i].operationKey == d.operationKey && outbox[i].payload == d.(message := message)
  }

  predicate TimerStored(timers: seq<Timer>, spec: TimerSpec, message: nat) {
    exists t :: 0 <= t < |timers| && TimerKey(timers[t]) == (message, spec.kind, spec.version)
                && timers[t].deadline == spec.deadline
  }

  lemma InsertStores(o: Options, db: Db, inbox: nat, d: Delivery, message: Option<nat>, now: int)
    requires InsertDelivery(o, db, inbox, d, message, now).Ok?
    ensures var b := InsertDelivery(o, db, inbox, d, message, now).value; db.outbox <= b.outbox && Stored(b.outbox, d, message)
  {
    var b := InsertDelivery(o, db, inbox, d, message, now).value;
    var known := FindOperation(db.outbox, d.operationKey);
    var i := if known.Some? then known.value else |db.outbox|;
    assert b.outbox[i].operationKey == d.operationKey && b.outbox[i].payload == d.(message := message);
  }

  lemma LongerStaysStored(a: seq<OutboxRow>, b: seq<OutboxRow>, d: Delivery, message: Option<nat>)
    requires a <= b && Stored(a, d, message)
    ensures Stored(b, d, message)
  {
    var i :| 0 <= i < |a| && a[i].operationKey == d.operationKey && a[i].payload == d.(message := message);
    assert b[i] == a[i];
  }

  lemma OneMoreStored(ds: seq<Delivery>, before: seq<OutboxRow>, after: seq<OutboxRow>, message: Option<nat>)
    requires ds != [] && before <= after && Stored(after, ds[|ds| - 1], message)
    requires forall d :: d in ds[..|ds| - 1] ==> Stored(before, d, message)
    ensures forall d :: d in ds ==> Stored(after, d, message)
  {
    forall d | d in ds ensures Stored(after, d, message) {
      if d in ds[..|ds| - 1] {
        LongerStaysStored(before, after, d, message);
      }
    }
  }

  lemma {:induction false} InsertAllStores(o: Options, db: Db, inbox: nat, ds: seq<Delivery>, message: Option<nat>, chat: nat,
                                           now: int)
    requires InsertAll(o, db, inbox, ds, message, chat, now).Ok?
    ensures forall d :: d in ds ==> Stored(InsertAll(o, db, inbox, ds, message, chat, now).value.outbox, d, message)
  {
    if ds != [] {
      var n := |ds| - 1;
      var before := InsertAll(o, db, inbox, ds[..n], message, chat, now).value;
      InsertAllStores(o, db, inbox, ds[..n], message, chat, now);
      InsertStores(o, before, inbox, ds[n], message, now);
      OneMoreStored(ds, before.outbox, InsertAll(o, db, inbox, ds, message, chat, now).value.outbox, message);
    }
  }

  lemma ScheduleStores(db: Db, spec: TimerSpec)
    requires ScheduleTimer(db, spec).Ok?
    ensures var s := ScheduleTimer(db, spec).value;
      && db.timers <= s.db.timers && spec.message.Some? && spec.message.value >= 0
      && TimerStored(s.db.timers, spec, spec.message.value)
  {
    var s := ScheduleTimer(db, spec).value;
    assert TimerKey(s.db.timers[s.id]) == (spec.message.value, spec.kind, spec.version);
  }

  lemma LongerKeepsTimer(a: seq<Timer>, b: seq<Timer>, spec: TimerSpec, m: nat)
    requires a <= b && TimerStored(a, spec, m)
    ensures TimerStored(b, spec, m)
  {
    var t :| 0 <= t < |a| && TimerKey(a[t]) == (m, spec.kind, spec.version) && a[t].deadline == spec.deadline;
    assert b[t] == a[t];
  }

  lemma {:induction false} ScheduleAllStores(db: Db, specs: seq<TimerSpec>, message: Option<nat>)
    requires ScheduleAll(db, specs, message).Ok?
    ensures var b := ScheduleAll(db, specs, message).value;
      forall i :: 0 <= i < |specs| ==> message.Some? && TimerStored(b.timers, specs[i], message.value)
  {
    if specs != [] {
      var n := |specs| - 1;
      var before, b := ScheduleAll(db, specs[..n], message).value, ScheduleAll(db, specs, message).value;
      ScheduleAllStores(db, specs[..n], message);
      ScheduleStores(before, specs[n].(message := message));
      assert TimerStored(b.timers, specs[n], message.value);
      forall i | 0 <= i < n ensures message.Some? && TimerStored(b.timers, specs[i], message.value) {
        assert specs[..n][i] == specs[i];
        LongerKeepsTimer(before.timers, b.timers, specs[i], message.value);
      }
    }
  }

  /** The message and the effects of the event itself, before its deliveries and timers. */
  function AppliedBy(db: Db, c: PlanCall): Result<Applied> {
    ApplyEvent(db, c.e, c.ds, Fence(c.now, c.clocks.first))
  }

  /** A plan that is not suppressed leaves a row for every delivery and a timer for every timer it asks for. */
  lemma PlanStoresWork(o: Options, db: Db, c: PlanCall)
    requires Plan(o, db, c).Ok?
    ensures AppliedBy(db, c).Ok?
    ensures var a, b := AppliedBy(db, c).value, Plan(o, db, c).value;
      !a.suppress ==>
        && (forall d :: d in c.ds ==> Stored(b.outbox, d, a.message))
        && (forall i :: 0 <= i < |c.timers| ==> a.message.Some? && TimerStored(b.timers, c.timers[i], a.message.value))
  {
    var fenced, a := Fence(c.now, c.clocks.first), AppliedBy(db, c).value;
    if !a.suppress && c.id >= 0 {
      var inserted := InsertAll(o, a.db, c.id, c.ds, a.message, a.chat, fenced).value;
      InsertAllStores(o, a.db, c.id, c.ds, a.message, a.chat, fenced);
      ScheduleAllStores(inserted, c.timers, a.message);
      ScheduleAllAppends(inserted, c.timers, a.message);
      assert Plan(o, db, c).value.outbox == inserted.outbox;
    }
  }

  /** Planning the revoke of a known part deletes its message with all parts and their source states, and empties the text. */
  lemma RevokeDeletes(o: Options, db: Db, c: PlanCall, p: nat)
    requires c.e.kind.MessageRevoke? && c.e.target.Some? && FindPart(db.parts, RefKey(c.e.target.value)) == Some(p)
    requires Plan(o, db, c).Ok?
    ensures db.parts[p].message < |db.messages|
    ensures var m, b := db.parts[p].message, Plan(o, db, c).value;
      && b.messages == db.messages[m := db.messages[m].(tombstone := true, version := c.e.version, text := None)]
      && |b.parts| == |db.parts|
      && (forall q :: 0 <= q < |b.parts| && db.parts[q].message == m ==> b.parts[q].deleted && b.parts[q].sourceDeleted)
      && (forall q :: 0 <= q < |b.parts| && db.parts[q].message != m ==> b.parts[q] == db.parts[q])
  {
    PlanKeepsSources(o, db, c);
  }

  /**
   * The first event of a message creates it in a chat with the event's native chat id, already deleted if the event is
   * a revoke, with the event's target as its one primary part.
   */
  lemma CreateBindsChat(o: Options, db: Db, c: PlanCall)
    requires c.e.target.Some? && FindPart(db.parts, RefKey(c.e.target.value)).None? && Plan(o, db, c).Ok?
    ensures var b, n := Plan(o, db, c).value, |db.messages|;
      && |b.messages| == n + 1 && b.messages[..n] == db.messages
      && |b.parts| == |db.parts| + 1 && b.parts[..|db.parts|] == db.parts
      && b.messages[n].chat < |db.chats| && NativeChat(db.chats[b.messages[n].chat], c.e.source) == c.e.chat
      && b.messages[n].version == c.e.version && b.messages[n].tombstone == c.e.kind.MessageRevoke?
      && b.messages[n].text == (if c.e.kind.MessageRevoke? then None else c.e.text)
      && b.parts[|db.parts|].message == n && b.parts[|db.parts|].key == RefKey(c.e.target.value)
      && b.parts[|db.parts|].role.Primary? && b.parts[|db.parts|].deleted == c.e.kind.MessageRevoke?
  {
    PlanKeepsSources(o, db, c);
  }

  /** An accepted edit supersedes every unsent older edit of its message, and no other row. */
  lemma EditSupersedes(o: Options, db: Db, c: PlanCall, p: nat, i: nat)
    requires RevisesPart(db, c.e, p) && c.e.kind.MessageEdit? && Plan(o, db, c).Ok? && i < |db.outbox|
    requires AppliedBy(db, c).Ok? && !AppliedBy(db, c).value.suppress
    ensures var r, b := db.outbox[i], Plan(o, db, c).value.outbox;
      && i < |b|
      && if r.message == Some(db.parts[p].message) && r.operation.MessageEdit? && r.startedAt.None?
            && (r.state.Pending? || r.state.Leased?)
         then b[i].state.Superseded? && b[i].lease.None? else b[i] == r
  {
    var fenced, a := Fence(c.now, c.clocks.first), AppliedBy(db, c).value;
    if c.id >= 0 {
      var inserted := InsertAll(o, a.db, c.id, c.ds, a.message, a.chat, fenced).value;
      InsertAllAppends(o, a.db, c.id, c.ds, a.message, a.chat, fenced);
      ScheduleAllAppends(inserted, c.timers, a.message);
      assert inserted.outbox[i] == a.db.outbox[i];
    }
  }

  // ----- recovery

  /** Recovery frees exactly the rows whose lease has run out: unsent work waits again, and a begun send is in doubt. */
  lemma RecoveryClearsExpired(db: Db, now: int)
    requires LeaseShape(db)
    ensures RecoverExpiredLeases(db, now).Ok? <==> now != ZERO_TIME
    ensures RecoverExpiredLeases(db, now).Ok? ==>
              var b := RecoverExpiredLeases(db, now).value;
              && b == db.(inbox := b.inbox, outbox := b.outbox, timers := b.timers)
              && |b.inbox| == |db.inbox| && |b.outbox| == |db.outbox| && |b.timers| == |db.timers|
              && (forall i :: 0 <= i < |b.inbox| ==>
                    var r := db.inbox[i];
                    b.inbox[i] == if r.lease.Some? && r.lease.value.until <= now
                                  then r.(state := InboxPending, lease := None) else r)
              && (forall i :: 0 <= i < |b.outbox| ==>
                    var r := db.outbox[i];
                    b.outbox[i] == if r.lease.Some? && r.lease.value.until <= now
                                   then r.(state := if r.startedAt.Some? then Uncertain else Pending, lease := None) else r)
              && (forall i :: 0 <= i < |b.timers| ==>
                    var r := db.timers[i];
                    b.timers[i] == if r.lease.Some? && r.lease.value.until <= now
                                   then r.(state := TimerPending, lease := None) else r)
  {
    forall i | 0 <= i < |db.outbox|
      ensures db.outbox[i].lease.Some? ==> db.outbox[i].state.Leased? || db.outbox[i].state.Sending?
    {
      assert OutboxShape(db.outbox[i]);
    }
    forall i | 0 <= i < |db.inbox| ensures db.inbox[i].lease.Some? ==> db.inbox[i].state.InboxLeased? {
      assert InboxShape(db.inbox[i]);
    }
    forall i | 0 <= i < |db.timers| ensures db.timers[i].lease.Some? ==> db.timers[i].state.TimerLeased? {
      assert TimerShape(db.timers[i]);
    }
  }

  // ----- admission

  predicate Answers(inbox: seq<InboxRow>, e: Event, i: int) {
    HasRow(inbox, i) && inbox[i].dedupe == AdmissionKey(e)
  }

  /** An admitted event has exactly one row, the returned one; a known event adds none, a new one adds just this row. */
  lemma AdmittedOnce(o: Options, inbox: seq<InboxRow>, e: Event, clock: int)
    requires UniqueInbox(inbox) && Accept(o, inbox, e, clock).Ok?
    ensures var a := Accept(o, inbox, e, clock).value;
      && Answers(a.inbox, e, a.id) && a.inbox[a.id].payload == e && (forall j :: Answers(a.inbox, e, j) ==> j == a.id)
      && inbox <= a.inbox && |a.inbox| == |inbox| + (if a.inserted then 1 else 0)
      && (a.inserted <==> forall i :: !Answers(inbox, e, i))
      && (a.inserted ==> a.inbox[a.id].lease.None? && (a.inbox[a.id].state.InboxPending? <==> e.kind.KnownEvent()))
  {
    var known := FindInbox(inbox, AdmissionKey(e));
    if known.Some? {
      assert Answers(inbox, e, known.value);
    }
  }
}
