/** Admission and the inbox as rules on the columns of the tables. */
module InboxRules {
  import opened Prelude
  import opened Utf16
  import opened Domain
  import opened Database
  import opened Admission
  import opened InboxWork
  import opened Keys
  import SendRules

  // ----- admission

  /** Author and id of the message an event is about. */
  predicate SameTarget(e: Event, f: Event) {
    && (if e.target.Some? then e.target.value.author else "") == (if f.target.Some? then f.target.value.author else "")
    && (if e.target.Some? then e.target.value.id else "") == (if f.target.Some? then f.target.value.id else "")
  }

  /** Two events are the same one exactly if source, chat, target, actor, key and epoch agree. */
  lemma SameEventExactlyWhen(e: Event, f: Event)
    ensures AdmissionKey(e) == AdmissionKey(f) <==>
              && e.source == f.source && e.chat == f.chat && SameTarget(e, f) && e.actor == f.actor && e.key == f.key
              && e.version.epoch == f.version.epoch
  {
  }

  /** The rows that count against the caps, and what they weigh: all that are not done, quarantined ones included. */
  ghost predicate Weighs(o: Options, inbox: seq<InboxRow>, counts: seq<nat>, bytes: seq<nat>) {
    && |counts| == |bytes| == |inbox|
    && forall i :: 0 <= i < |inbox| ==>
         if inbox[i].state == InboxDone then counts[i] == bytes[i] == 0
         else counts[i] == 1 && bytes[i] == o.eventBytes(inbox[i].payload)
  }

  lemma WeighsTotals(o: Options, inbox: seq<InboxRow>, counts: seq<nat>, bytes: seq<nat>)
    requires Weighs(o, inbox, counts, bytes)
    ensures InboxCounts(inbox) == counts && InboxBytes(o, inbox) == bytes
  {
  }

  ghost predicate Knows(inbox: seq<InboxRow>, i: int, e: Event) {
    && 0 <= i < |inbox| && inbox[i].payload.source == e.source && inbox[i].payload.chat == e.chat
    && SameTarget(inbox[i].payload, e) && inbox[i].payload.actor == e.actor && inbox[i].payload.key == e.key
    && inbox[i].payload.version.epoch == e.version.epoch
  }

  /** The row of a new event: waiting from now on if its kind is known, and set aside for an operator otherwise. */
  function Entered(e: Event, clock: int): InboxRow {
    var target := if e.target.None? then ChatTarget(e.source, e.chat)
                  else RefTarget(Key(e.target.value.platform, e.target.value.chat, e.target.value.author, e.target.value.id));
    var known := match e.kind case TopicCreate => false case TopicRename => false case OtherKind(_) => false case _ => true;
    InboxRow(AdmissionKey(e), target, e, if known then InboxPending else Quarantined, clock, None)
  }

  /** What becomes of an event: refused, known unchanged, in conflict with what is known, without room, or a new row. */
  lemma AdmissionIsDecided(o: Options, inbox: seq<InboxRow>, e: Event, clock: int, counts: seq<nat>, bytes: seq<nat>)
    requires UniqueInbox(inbox) && Weighs(o, inbox, counts, bytes)
    ensures var r := Accept(o, inbox, e, clock);
      if !e.Valid() || o.eventBytes(e) > 0x10_0000 then r == Err(Invalid)
      else if exists i :: Knows(inbox, i, e) then
        exists i :: Knows(inbox, i, e) && r == if inbox[i].payload == e then Ok(Admitted(inbox, i, false)) else Err(Conflict)
      else if Total(counts) >= o.maxInboxCount || Total(bytes) + o.eventBytes(e) > o.maxInboxBytes then r == Err(Saturated)
      else r == Ok(Admitted(inbox + [Entered(e, clock)], |inbox|, true))
  {
    WeighsTotals(o, inbox, counts, bytes);
    var known := FindInbox(inbox, AdmissionKey(e));
    forall i | Knows(inbox, i, e) ensures inbox[i].dedupe == AdmissionKey(e) {
      SameEventExactlyWhen(inbox[i].payload, e);
    }
    if known.Some? {
      SameEventExactlyWhen(inbox[known.value].payload, e);
      assert Knows(inbox, known.value, e);
    }
  }

  lemma {:induction false} BatchEvents(o: Options, inbox: seq<InboxRow>, events: seq<Event>, epoch: string, clock: int)
    requires AcceptAll(o, inbox, events, epoch, clock).Ok?
    ensures forall e :: e in events ==> e.source == Telegram && e.version.epoch == epoch
  {
    if events != [] {
      var n := |events| - 1;
      BatchEvents(o, inbox, events[..n], epoch, clock);
      assert events == events[..n] + [events[n]];
    }
  }

  /**
   * A batch commits with its cursor exactly if it is not too long, goes on from the stored cursor in the same epoch, and
   * every event is of Telegram and this epoch and can be admitted after those before it.
   */
  lemma BatchCommitsExactlyWhen(o: Options, db: Db, events: seq<Event>, next: int, epoch: string, clock: int)
    ensures AcceptTelegramBatch(o, db, events, next, epoch, clock).Ok? <==>
              && next >= 0 && 0 < |epoch| <= 256 && |events| <= o.maxInboxCount
              && (db.cursor.Some? ==> db.cursor.value.epoch == epoch && db.cursor.value.next <= next)
              && AcceptAll(o, db.inbox, events, epoch, clock).Ok?
    ensures AcceptTelegramBatch(o, db, events, next, epoch, clock).Ok? ==>
              && (forall e :: e in events ==> e.source == Telegram && e.version.epoch == epoch)
              && AcceptTelegramBatch(o, db, events, next, epoch, clock).value
                 == db.(inbox := AcceptAll(o, db.inbox, events, epoch, clock).value, cursor := Some(Cursor(next, epoch)))
  {
    if AcceptAll(o, db.inbox, events, epoch, clock).Ok? {
      BatchEvents(o, db.inbox, events, epoch, clock);
    }
  }

  // ----- what is well formed

  predicate Name(s: string, max: nat) {
    0 < |s| <= max && '\0' !in s
  }

  predicate WellNamed(ref: MessageRef) {
    Name(ref.chat, 256) && Name(ref.author, 256) && Name(ref.id, 256) && |ref.device| <= 256
  }

  predicate WellVersioned(v: SourceVersion) {
    Name(v.kind, 64) && v.order >= 0 && |v.tie| <= 256 && Name(v.digest, 128) && |v.epoch| <= 256
  }

  /** The entity lies in the text and splits no surrogate pair. */
  predicate WellPlaced(e: TextEntity, units: seq<Unit>) {
    && Name(e.kind, 64) && |e.url| <= 4096 && |e.mention| <= 256
    && e.start >= 0 && e.length > 0 && e.start + e.length <= |units|
    && (e.start > 0 ==> !(0xDC00 <= units[e.start] <= 0xDFFF))
    && (e.start + e.length < |units| ==> !(0xDC00 <= units[e.start + e.length] <= 0xDFFF))
  }

  predicate WellWritten(t: TextContent) {
    && Utf8Length(t.text) + |t.forwardLabel| <= 0x10_0000 && |t.entities| <= 1024 && |t.mentionTargets| <= 1024
    && (t.replyTo.Some? ==> WellNamed(t.replyTo.value))
    && (forall e :: e in t.entities ==> WellPlaced(e, Encode(t.text)))
    && (forall l :: l in t.mentionTargets ==> l.telegramUser > 0 && Name(l.jid, 256))
  }

  lemma TextIsWellWritten(t: TextContent)
    ensures t.Valid() <==> WellWritten(t)
  {
    forall e: TextEntity ensures ValidEntity(e, Encode(t.text)) <==> WellPlaced(e, Encode(t.text)) {
    }
    assert forall i :: 0 <= i < |t.entities| ==> t.entities[i] in t.entities;
    assert forall i :: 0 <= i < |t.mentionTargets| ==> t.mentionTargets[i] in t.mentionTargets;
  }

  /** An event is refused as invalid exactly if one of its fields is out of bounds, or it names a message it is not about. */
  lemma InvalidExactlyWhen(o: Options, inbox: seq<InboxRow>, e: Event, clock: int)
    ensures Accept(o, inbox, e, clock) != Err(Invalid) <==>
              && Name(e.key, 512) && (e.kind.OtherKind? ==> Name(e.kind.name, 64)) && Name(e.chat, 256) && Name(e.actor, 256)
              && WellVersioned(e.version) && |e.metadata| + |e.raw| <= 0x10_0000 && o.eventBytes(e) <= 0x10_0000
              && (e.kind in {MessageCreate, MessageEdit, MessageRevoke, ReactionSet, MessageKeep} ==> e.target.Some?)
              && e.thread >= 0 && (e.source == WhatsApp ==> e.thread == 0)
              && (e.target.Some? ==> WellNamed(e.target.value) && e.target.value.platform == e.source
                                     && e.target.value.chat == e.chat)
              && (e.text.Some? ==> WellWritten(e.text.value))
  {
    if e.text.Some? {
      TextIsWellWritten(e.text.value);
    }
  }

  // ----- work

  ghost predicate PartOf(parts: seq<Part>, p: int, m: nat, target: TargetKey) {
    0 <= p < |parts| && parts[p].message == m && target == RefTarget(parts[p].key)
  }

  /** The event is due, and no event in work is about the same target or about another part of the same message. */
  ghost predicate Workable(db: Db, i: int, t: int) {
    && 0 <= i < |db.inbox| && db.inbox[i].state == InboxPending && db.inbox[i].availableAt <= t
    && forall j :: 0 <= j < |db.inbox| && db.inbox[j].state == InboxLeased ==>
         && db.inbox[j].target != db.inbox[i].target
         && forall p, q, m :: PartOf(db.parts, p, m, db.inbox[i].target) ==> !PartOf(db.parts, q, m, db.inbox[j].target)
  }

  lemma AliasesShareMessage(parts: seq<Part>, a: TargetKey, b: TargetKey)
    ensures Aliases(parts, a, b) <==>
              a == b || exists p, q, m :: PartOf(parts, p, m, a) && PartOf(parts, q, m, b)
  {
    if Aliases(parts, a, b) && a != b {
      var p, q :| 0 <= p < |parts| && 0 <= q < |parts| && parts[p].message == parts[q].message
                  && RefTarget(parts[p].key) == a && RefTarget(parts[q].key) == b;
      assert PartOf(parts, p, parts[p].message, a) && PartOf(parts, q, parts[p].message, b);
    }
  }

  lemma EligibleIsWorkable(db: Db, i: nat, t: int)
    requires i < |db.inbox|
    ensures InboxEligible(db, i, t) <==> Workable(db, i, t)
  {
    forall j | 0 <= j < |db.inbox|
      ensures Aliases(db.parts, db.inbox[i].target, db.inbox[j].target) <==>
                db.inbox[i].target == db.inbox[j].target
                || exists p, q, m :: PartOf(db.parts, p, m, db.inbox[i].target) && PartOf(db.parts, q, m, db.inbox[j].target)
    {
      AliasesShareMessage(db.parts, db.inbox[i].target, db.inbox[j].target);
    }
  }

  /** A claim leases the least workable event and changes nothing else; without one there is no work. */
  lemma InboxClaimTakesLeast(db: Db, token: nat, now: int, ttl: int, clock: int)
    ensures var t, c := if clock > now then clock else now, ClaimInbox(db, token, now, ttl, clock);
      if now == ZERO_TIME || ttl < 1 || ttl > 3600000 then c == Err(Invalid)
      else if c.Ok? then
        && Workable(db, c.value.id, t) && (forall j :: 0 <= j < c.value.id ==> !Workable(db, j, t))
        && var row := db.inbox[c.value.id].(state := InboxLeased, lease := Some(Lease(token, t + ttl)));
           c.value.db == db.(inbox := db.inbox[c.value.id := row])
      else c == Err(NoWork) && forall j :: !Workable(db, j, t)
  {
    var t := if clock > now then clock else now;
    forall j | 0 <= j < |db.inbox| ensures InboxEligible(db, j, t) <==> Workable(db, j, t) {
      EligibleIsWorkable(db, j, t);
    }
  }

  /** The caller works on the event under a live lease. */
  ghost predicate InWork(db: Db, id: int, token: nat, now: int, clock: int) {
    && 0 <= id < |db.inbox| && db.inbox[id].state == InboxLeased
    && SendRules.Held(db.inbox[id].lease, token, now, clock, clock)
  }

  /** An event in work is put back until later, done or set aside by its worker alone, and nothing else changes. */
  lemma SettlesExactlyWhen(db: Db, id: int, token: nat, availableAt: int, state: InboxState, now: int, clock: int)
    ensures DeferInbox(db, id, token, availableAt, now, clock)
            == if availableAt < now then Err(Invalid)
               else if !InWork(db, id, token, now, clock) then Err(LeaseLost)
               else Ok(db.(inbox := db.inbox[id := db.inbox[id].(state := InboxPending, availableAt := availableAt,
                                                                 lease := None)]))
    ensures FinishInbox(db, id, token, state, now, clock)
            == if now == ZERO_TIME then Err(Invalid)
               else if !InWork(db, id, token, now, clock) then Err(LeaseLost)
               else Ok(db.(inbox := db.inbox[id := db.inbox[id].(state := state, lease := None)]))
  {
  }
}
