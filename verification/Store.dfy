/**
 * The store as the repository has it: an object around one database whose methods run one transaction each. A method
 * works on a local copy and assigns the field when it commits. Every method is proved against the transaction function
 * of the same name, so everything proved about runs of those functions holds for runs of this object.
 */
module BridgeStore {
  import opened Prelude
  import opened Domain
  import opened Database
  import opened Loops
  import Admission
  import InboxWork
  import Planning
  import Deliveries
  import SendRules
  import Timers
  import TimerSafety
  import Chats

  datatype ClaimedEvent = ClaimedEvent(e: Event, id: nat, token: nat)

  datatype ClaimedDelivery = ClaimedDelivery(d: Delivery, id: nat, token: nat, until: int)

  datatype ClaimedTimer = ClaimedTimer(t: Timer, chat: nat, id: nat, token: nat, parts: seq<Part>)

  /** The call committed what the transaction function says, or was refused with its error and changed nothing. */
  predicate Commits(before: Db, tx: Result<Db>, after: Db, r: Result<()>) {
    match tx
    case Ok(b) => r == Ok(()) && after == b
    case Err(e) => r == Err(e) && after == before
  }

  /** `UPDATE bridge_outbox SET state='superseded' ...`, row by row. */
  method SupersedeRows(outbox: seq<OutboxRow>, m: nat, editsOnly: bool) returns (rows: seq<OutboxRow>)
    ensures rows == Planning.Supersede(outbox, m, editsOnly)
  {
    rows := outbox;
    for i := 0 to |outbox|
      invariant |rows| == |outbox| && rows[i..] == outbox[i..]
      invariant rows[..i] == Planning.Supersede(outbox, m, editsOnly)[..i]
    {
      assert rows[i] == rows[i..][0] == outbox[i..][0];
      if Planning.Supersedable(rows[i], m, editsOnly) {
        rows := rows[i := rows[i].(state := Superseded, lease := None)];
      }
    }
  }

  /** `UPDATE bridge_source_state SET deleted=1 ...; UPDATE bridge_part SET deleted=1 ...`. */
  method MarkPartsDeleted(parts: seq<Part>, m: nat) returns (rows: seq<Part>)
    ensures rows == Planning.MarkDeleted(parts, m)
  {
    rows := parts;
    for i := 0 to |parts|
      invariant |rows| == |parts| && rows[i..] == parts[i..]
      invariant rows[..i] == Planning.MarkDeleted(parts, m)[..i]
    {
      assert rows[i] == rows[i..][0] == parts[i..][0];
      if rows[i].message == m {
        rows := rows[i := rows[i].(deleted := true, sourceDeleted := true)];
      }
    }
  }

  method EntombMessage(db: Db, m: nat) returns (tx: Db)
    requires m < |db.messages|
    ensures tx == Planning.Entomb(db, m)
  {
    var outbox := SupersedeRows(db.outbox, m, false);
    var parts := MarkPartsDeleted(db.parts, m);
    tx := db.(outbox := outbox, parts := parts, messages := db.messages[m := db.messages[m].(tombstone := true)]);
  }

  /** The parts of a message; the source orders them by platform and index, which plays no part here. */
  function PartsOf(parts: seq<Part>, m: nat): seq<Part> {
    if parts == [] then []
    else
      var rest := PartsOf(parts[..|parts| - 1], m);
      if parts[|parts| - 1].message == m then rest + [parts[|parts| - 1]] else rest
  }

  method ReadParts(parts: seq<Part>, m: nat) returns (found: seq<Part>)
    ensures found == PartsOf(parts, m)
  {
    found := [];
    for i := 0 to |parts|
      invariant found == PartsOf(parts[..i], m)
    {
      assert parts[..i + 1][..i] == parts[..i];
      if parts[i].message == m {
        found := found + [parts[i]];
      }
    }
    assert parts[..|parts|] == parts;
  }

  class Store {
    var db: Db
    var tokens: nat
    const options: Options

    constructor (o: Options)
      ensures db == EMPTY && options == o && tokens == 0
    {
      db := EMPTY;
      options := o;
      tokens := 0;
    }

    // ----- admission

    method Accept(e: Event, clock: int) returns (r: Result<Admission.Admitted>)
      modifies this`db
      ensures r == Admission.Accept(options, old(db.inbox), e, clock)
      ensures db == if r.Ok? then old(db).(inbox := r.value.inbox) else old(db)
    {
      if !e.Valid() || options.eventBytes(e) > MAX_EVENT_BYTES {
        return Err(Invalid);
      }
      var known := FindInbox(db.inbox, Admission.AdmissionKey(e));
      if known.Some? {
        if db.inbox[known.value].payload != e {
          return Err(Conflict);
        }
        return Ok(Admission.Admitted(db.inbox, known.value, false));
      }
      var count, bytes := Total(Admission.InboxCounts(db.inbox)), Total(Admission.InboxBytes(options, db.inbox));
      if count >= options.maxInboxCount || options.eventBytes(e) > options.maxInboxBytes - bytes {
        return Err(Saturated);
      }
      db := db.(inbox := db.inbox + [Admission.NewInboxRow(e, clock)]);
      return Ok(Admission.Admitted(db.inbox, |db.inbox| - 1, true));
    }

    /** The events of a batch one after the other, up to the first that is refused. */
    method AcceptEvents(events: seq<Event>, epoch: string, clock: int) returns (r: Result<seq<InboxRow>>)
      ensures r == Admission.AcceptAll(options, db.inbox, events, epoch, clock)
    {
      var inbox := db.inbox;
      for i := 0 to |events|
        invariant Admission.AcceptAll(options, db.inbox, events[..i], epoch, clock) == Ok(inbox)
      {
        assert events[..i + 1][..i] == events[..i];
        var e := events[i];
        if e.source != Telegram || e.version.epoch != epoch {
          AcceptAllFails(options, db.inbox, events, epoch, clock, i + 1);
          return Err(Invalid);
        }
        var a := Admission.Accept(options, inbox, e, clock);
        if a.Err? {
          AcceptAllFails(options, db.inbox, events, epoch, clock, i + 1);
          return Err(a.error);
        }
        inbox := a.value.inbox;
      }
      assert events[..|events|] == events;
      return Ok(inbox);
    }

    method AcceptTelegramBatch(events: seq<Event>, next: int, epoch: string, clock: int) returns (r: Result<()>)
      modifies this`db
      ensures Commits(old(db), Admission.AcceptTelegramBatch(options, old(db), events, next, epoch, clock), db, r)
    {
      if next < 0 || epoch == "" || |epoch| > 256 || |events| > options.maxInboxCount {
        return Err(Invalid);
      }
      if db.cursor.Some? && (epoch != db.cursor.value.epoch || next < db.cursor.value.next) {
        return Err(Conflict);
      }
      var accepted := AcceptEvents(events, epoch, clock);
      if accepted.Err? {
        return Err(accepted.error);
      }
      db := db.(inbox := accepted.value, cursor := Some(Cursor(next, epoch)));
      return Ok(());
    }

    // ----- inbox work

    method ClaimInbox(now: int, ttl: int, clock: int) returns (r: Result<ClaimedEvent>)
      modifies this
      ensures var c := InboxWork.ClaimInbox(old(db), old(tokens), now, ttl, clock);
        if c.Ok? then r == Ok(ClaimedEvent(old(db).inbox[c.value.id].payload, c.value.id, old(tokens))) && db == c.value.db
        else r == Err(c.error) && db == old(db)
      ensures tokens == old(tokens) + if InboxWork.ValidLease(now, ttl) then 1 else 0
    {
      if !InboxWork.ValidLease(now, ttl) {
        return Err(Invalid);
      }
      var token := tokens;
      tokens := tokens + 1;
      var t, i := Fence(now, clock), 0;
      while i < |db.inbox|
        invariant 0 <= i <= |db.inbox| && db == old(db) && tokens == old(tokens) + 1
        invariant InboxWork.NextInbox(db, t) == InboxWork.NextInbox(db, t, i)
      {
        if InboxWork.InboxEligible(db, i, t) {
          var row := db.inbox[i];
          db := db.(inbox := db.inbox[i := row.(state := InboxLeased, lease := Some(Lease(token, t + ttl)))]);
          return Ok(ClaimedEvent(row.payload, i, token));
        }
        i := i + 1;
      }
      return Err(NoWork);
    }

    method DeferInbox(id: int, token: nat, availableAt: int, now: int, clock: int) returns (r: Result<()>)
      modifies this`db
      ensures Commits(old(db), InboxWork.DeferInbox(old(db), id, token, availableAt, now, clock), db, r)
    {
      if availableAt < now {
        return Err(Invalid);
      }
      if !InboxWork.LiveInbox(db, id, token, Fence(now, clock)) {
        return Err(LeaseLost);
      }
      var row := db.inbox[id].(state := InboxPending, availableAt := availableAt, lease := None);
      db := db.(inbox := db.inbox[id := row]);
      return Ok(());
    }

    method QuarantineInbox(id: int, token: nat, now: int, clock: int) returns (r: Result<()>)
      modifies this`db
      ensures Commits(old(db), InboxWork.FinishInbox(old(db), id, token, Quarantined, now, clock), db, r)
    {
      r := Finish(id, token, Quarantined, now, clock);
    }

    method CompleteInbox(id: int, token: nat, now: int, clock: int) returns (r: Result<()>)
      modifies this`db
      ensures Commits(old(db), InboxWork.FinishInbox(old(db), id, token, InboxDone, now, clock), db, r)
    {
      r := Finish(id, token, InboxDone, now, clock);
    }

    method Finish(id: int, token: nat, state: InboxState, now: int, clock: int) returns (r: Result<()>)
      modifies this`db
      ensures Commits(old(db), InboxWork.FinishInbox(old(db), id, token, state, now, clock), db, r)
    {
      if now == ZERO_TIME {
        return Err(Invalid);
      }
      if !InboxWork.LiveInbox(db, id, token, Fence(now, clock)) {
        return Err(LeaseLost);
      }
      db := db.(inbox := db.inbox[id := db.inbox[id].(state := state, lease := None)]);
      return Ok(());
    }

    // ----- planning

    /** Marks the event applied in a working copy: supersessions and deletions run over the rows. */
    static method ApplyEvent(db: Db, e: Event, ds: seq<Delivery>, now: int) returns (r: Result<Planning.Applied>)
      ensures r == Planning.ApplyEvent(db, e, ds, now)
    {
      if e.target.None? {
        var chat := Planning.RouteChatEvent(db.chats, e, ds);
        return if chat.Ok? then Ok(Planning.Applied(db, None, chat.value, false)) else Err(chat.error);
      }
      var known := FindPart(db.parts, RefKey(e.target.value));
      if known.None? {
        if !e.kind.MessageCreate? && !e.kind.MessageRevoke? {
          return Err(NoWork);
        }
        var chat := Planning.SourceChat(db, e, ds);
        return if chat.Ok? then Planning.CreateSource(db, e, chat.value, now) else Err(chat.error);
      }
      var p, m := known.value, db.parts[known.value].message;
      if m >= |db.messages| {
        return Err(Storage);
      }
      var chat := db.messages[m].chat;
      if db.messages[m].tombstone && !e.kind.MessageRevoke? {
        return Ok(Planning.Applied(db, Some(m), chat, true));
      }
      if e.kind.ReactionSet? {
        return Ok(Planning.Applied(db, Some(m), chat, false));
      }
      if e.kind.MessageRevoke? {
        var tx := EntombMessage(Planning.Revise(db, p, e.version, None), m);
        return Ok(Planning.Applied(tx, Some(m), chat, false));
      }
      if !e.kind.MessageCreate? && !e.kind.MessageEdit? {
        return Err(Invalid);
      }
      r := ApplyRevision(db, e, p);
    }

    static method ApplyRevision(db: Db, e: Event, p: nat) returns (r: Result<Planning.Applied>)
      requires p < |db.parts| && db.parts[p].message < |db.messages|
      ensures r == Planning.ApplyRevision(db, e, p)
    {
      var m := db.parts[p].message;
      var chat := db.messages[m].chat;
      var stale := Planning.Stale(e.version, db.parts[p].version);
      if stale.Err? {
        return Err(stale.error);
      }
      if !stale.value {
        stale := Planning.Stale(e.version, db.messages[m].version);
        if stale.Err? {
          return Err(stale.error);
        }
      }
      if stale.value {
        return Ok(Planning.Applied(db, Some(m), chat, true));
      }
      var tx := Planning.Revise(db, p, e.version, e.text);
      if e.kind.MessageEdit? {
        var outbox := SupersedeRows(tx.outbox, m, true);
        tx := tx.(outbox := outbox);
      }
      return Ok(Planning.Applied(tx, Some(m), chat, false));
    }

    method PlanWork(a: Planning.Applied, inbox: nat, ds: seq<Delivery>, timers: seq<Planning.TimerSpec>, now: int)
      returns (r: Result<Db>)
      ensures r == Planning.PlanWork(options, a, inbox, ds, timers, now)
    {
      if a.suppress {
        return Ok(a.db);
      }
      var tx := a.db;
      for i := 0 to |ds|
        invariant Planning.InsertAll(options, a.db, inbox, ds[..i], a.message, a.chat, now) == Ok(tx)
      {
        assert ds[..i + 1][..i] == ds[..i];
        if ds[i].chat != a.chat || (ds[i].message.Some? && ds[i].message != a.message) {
          InsertAllFails(options, a.db, inbox, ds, a.message, a.chat, now, i + 1);
          return Err(Conflict);
        }
        var inserted := Planning.InsertDelivery(options, tx, inbox, ds[i], a.message, now);
        if inserted.Err? {
          InsertAllFails(options, a.db, inbox, ds, a.message, a.chat, now, i + 1);
          return inserted;
        }
        tx := inserted.value;
      }
      assert ds[..|ds|] == ds;
      r := ScheduleTimers(tx, timers, a.message);
    }

    static method ScheduleTimers(db: Db, timers: seq<Planning.TimerSpec>, message: Option<nat>) returns (r: Result<Db>)
      ensures r == Planning.ScheduleAll(db, timers, message)
    {
      var tx := db;
      for i := 0 to |timers|
        invariant Planning.ScheduleAll(db, timers[..i], message) == Ok(tx)
      {
        assert timers[..i + 1][..i] == timers[..i];
        if message.None? || (timers[i].message.Some? && timers[i].message != message) {
          ScheduleAllFails(db, timers, message, i + 1);
          return Err(Conflict);
        }
        var scheduled := Planning.ScheduleTimer(tx, timers[i].(message := message));
        if scheduled.Err? {
          ScheduleAllFails(db, timers, message, i + 1);
          return Err(scheduled.error);
        }
        tx := scheduled.value.db;
      }
      assert timers[..|timers|] == timers;
      return Ok(tx);
    }

    method CheckIntents(e: Event, ds: seq<Delivery>) returns (r: Result<()>)
      ensures r == Planning.CheckIntents(e, ds)
    {
      for i := 0 to |ds|
        invariant Planning.CheckIntents(e, ds) == Planning.CheckIntents(e, ds[i..])
      {
        if ds[i].version != e.version {
          return Err(Conflict);
        }
        if e.target.Some? && ds[i].kind != e.kind {
          return Err(Invalid);
        }
        assert ds[i..][1..] == ds[i + 1..];
      }
      return Ok(());
    }

    method PlanEvent(e: Event, id: int, token: nat, ds: seq<Delivery>, timers: seq<Planning.TimerSpec>, now: int,
                     clocks: Clocks) returns (r: Result<()>)
      modifies this`db
      ensures Commits(old(db), Planning.PlanEvent(options, old(db), e, id, token, ds, timers, now, clocks), db, r)
    {
      if id < 0 || now == ZERO_TIME || !e.Valid() {
        return Err(Invalid);
      }
      var t := Fence(now, clocks.first);
      if !InboxWork.LiveInbox(db, id, token, t) {
        return Err(LeaseLost);
      }
      if e != db.inbox[id].payload
         || (e.target.Some? && (e.kind.MessageCreate? || e.kind.MessageEdit?) && e.actor != e.target.value.author)
      {
        return Err(Conflict);
      }
      var checked := CheckIntents(e, ds);
      if checked.Err? {
        return checked;
      }
      var applied := ApplyEvent(db, e, ds, t);
      if applied.Err? {
        return Err(applied.error);
      }
      var planned := PlanWork(applied.value, id, ds, timers, t);
      if planned.Err? {
        return Err(planned.error);
      }
      var tx := planned.value;
      if !InboxWork.LiveInbox(tx, id, token, Fence(t, clocks.second)) {
        return Err(LeaseLost);
      }
      db := tx.(inbox := tx.inbox[id := tx.inbox[id].(state := InboxDone, lease := None)]);
      return Ok(());
    }

    // ----- recovery

    method RecoverExpiredLeases(now: int) returns (r: Result<()>)
      modifies this`db
      ensures Commits(old(db), Deliveries.RecoverExpiredLeases(old(db), now), db, r)
    {
      if now == ZERO_TIME {
        return Err(Invalid);
      }
      var inbox := [];
      for i := 0 to |db.inbox|
        invariant db == old(db) && |inbox| == i
        invariant forall k :: 0 <= k < i ==> inbox[k] == Deliveries.RecoverInboxRow(db.inbox[k], now)
      {
        inbox := inbox + [Deliveries.RecoverInboxRow(db.inbox[i], now)];
      }
      var outbox := [];
      for i := 0 to |db.outbox|
        invariant db == old(db) && |outbox| == i
        invariant forall k :: 0 <= k < i ==> outbox[k] == Deliveries.RecoverOutboxRow(db.outbox[k], now)
      {
        outbox := outbox + [Deliveries.RecoverOutboxRow(db.outbox[i], now)];
      }
      var timers := [];
      for i := 0 to |db.timers|
        invariant db == old(db) && |timers| == i
        invariant forall k :: 0 <= k < i ==> timers[k] == Deliveries.RecoverTimerRow(db.timers[k], now)
      {
        timers := timers + [Deliveries.RecoverTimerRow(db.timers[i], now)];
      }
      assert db.(inbox := inbox, outbox := outbox, timers := timers) == Deliveries.RecoverExpiredLeases(db, now).value;
      db := db.(inbox := inbox, outbox := outbox, timers := timers);
      return Ok(());
    }

    // ----- deliveries

    method ClaimDelivery(now: int, ttl: int, clock: int) returns (r: Result<ClaimedDelivery>)
      modifies this
      ensures var c := Deliveries.ClaimDelivery(old(db), old(tokens), now, ttl, clock);
        if c.Ok?
        then db == c.value.db
             && r == Ok(ClaimedDelivery(old(db).outbox[c.value.id].payload, c.value.id, old(tokens), Fence(now, clock) + ttl))
        else r == Err(c.error) && db == old(db)
      ensures tokens == old(tokens) + if InboxWork.ValidLease(now, ttl) then 1 else 0
      ensures r.Ok? ==>
                var i, t := r.value.id, if clock > now then clock else now;
                && SendRules.Claimable(old(db), i, t) && (forall j :: 0 <= j < i ==> !SendRules.Claimable(old(db), j, t))
                && var row := old(db).outbox[i].(state := Leased, lease := Some(Lease(old(tokens), t + ttl)));
                   db == old(db).(outbox := old(db).outbox[i := row])
    {
      SendRules.ClaimTakesLeast(db, tokens, now, ttl, clock);
      if !InboxWork.ValidLease(now, ttl) {
        return Err(Invalid);
      }
      var token := tokens;
      tokens := tokens + 1;
      var t, i := Fence(now, clock), 0;
      while i < |db.outbox|
        invariant 0 <= i <= |db.outbox| && db == old(db) && tokens == old(tokens) + 1
        invariant Deliveries.NextDelivery(db, t) == Deliveries.NextDelivery(db, t, i)
      {
        if Deliveries.Eligible(db, i, t) {
          var row := db.outbox[i];
          db := db.(outbox := db.outbox[i := row.(state := Leased, lease := Some(Lease(token, t + ttl)))]);
          return Ok(ClaimedDelivery(row.payload, i, token, t + ttl));
        }
        i := i + 1;
      }
      return Err(NoWork);
    }

    method BeginSend(id: int, token: nat, now: int, clocks: Clocks) returns (r: Result<()>)
      modifies this`db
      ensures Commits(old(db), Deliveries.BeginSend(old(db), id, token, now, clocks), db, r)
    {
      if now == ZERO_TIME {
        return Err(Invalid);
      }
      var t := Fence(now, clocks.first);
      if !Deliveries.Sendable(db, id, token, t) {
        return Err(LeaseLost);
      }
      var intent := Deliveries.StoredIntent(db, id);
      if intent.Err? {
        return intent;
      }
      var d := db.outbox[id].payload;
      if !Deliveries.TargetReady(db, d) || !Deliveries.Undeleted(db, d) {
        return Err(Conflict);
      }
      var echoes := db.echoes;
      if d.platform == WhatsApp {
        var reservation := Deliveries.ReservedEcho(db, id);
        if FindEcho(echoes, reservation.key).Some? {
          return Err(Conflict);
        }
        echoes := echoes + [reservation];
      }
      if !Deliveries.LiveDelivery(db, id, token, Fence(t, clocks.third)) {
        return Err(LeaseLost);
      }
      var row := db.outbox[id].(state := Sending, startedAt := Some(Fence(t, clocks.second)));
      db := db.(outbox := db.outbox[id := row], echoes := echoes);
      return Ok(());
    }

    static method LinkParts(db: Db, m: nat, d: Delivery, chat: Chat, results: seq<DeliveredPart>, version: SourceVersion,
                            tombstone: bool) returns (r: Result<seq<Part>>)
      ensures r == Deliveries.LinkParts(db.parts, m, d, chat, results, version, tombstone)
    {
      var parts := db.parts;
      for i := 0 to |results|
        invariant Deliveries.LinkParts(db.parts, m, d, chat, results[..i], version, tombstone) == Ok(parts)
      {
        assert results[..i + 1][..i] == results[..i];
        if !Deliveries.AcceptablePart(results[i], d, chat) {
          LinkPartsFails(db.parts, m, d, chat, results, version, tombstone, i + 1);
          return Err(Invalid);
        }
        var linked := Deliveries.LinkPart(parts, m, d, results[i], version, tombstone);
        if linked.Err? {
          LinkPartsFails(db.parts, m, d, chat, results, version, tombstone, i + 1);
          return linked;
        }
        parts := linked.value;
      }
      assert results[..|results|] == results;
      return Ok(parts);
    }

    static method ReserveEchoes(db: Db, id: nat, eventIds: seq<string>) returns (r: Result<seq<Echo>>)
      requires id < |db.outbox| && db.outbox[id].chat < |db.chats|
      ensures r == Deliveries.ReserveEchoes(db, id, eventIds)
    {
      var echoes := db.echoes;
      for i := 0 to |eventIds|
        invariant Deliveries.ReserveEchoes(db, id, eventIds[..i]) == Ok(echoes)
      {
        assert eventIds[..i + 1][..i] == eventIds[..i];
        var reserved := Deliveries.ReserveEcho(db, echoes, id, eventIds[i]);
        if reserved.Err? {
          ReserveEchoesFails(db, id, eventIds, i + 1);
          return reserved;
        }
        echoes := reserved.value;
      }
      assert eventIds[..|eventIds|] == eventIds;
      return Ok(echoes);
    }

    static method MarkPlatformDeleted(parts: seq<Part>, m: nat, platform: Platform) returns (rows: seq<Part>)
      ensures rows == Deliveries.MarkPlatformDeleted(parts, m, platform)
    {
      rows := parts;
      for i := 0 to |parts|
        invariant |rows| == |parts| && rows[i..] == parts[i..]
        invariant rows[..i] == Deliveries.MarkPlatformDeleted(parts, m, platform)[..i]
      {
        assert rows[i] == rows[i..][0] == parts[i..][0];
        if rows[i].message == m && rows[i].key.platform == platform {
          rows := rows[i := rows[i].(deleted := true)];
        }
      }
    }

    /** Parts, acknowledgements and echoes of a result, in a working copy. */
    static method RecordResult(db: Db, id: nat, c: Completion) returns (r: Result<Db>)
      requires id < |db.outbox| && db.outbox[id].chat < |db.chats|
      ensures r == Deliveries.RecordResult(db, id, c)
    {
      var shape := Deliveries.CompletionShape(db, id, c);
      if shape.Err? {
        return Err(shape.error);
      }
      var m, d, chat := shape.value, db.outbox[id].payload, db.chats[db.outbox[id].chat];
      if m >= |db.messages| {
        return Err(Storage);
      }
      var tombstone := db.messages[m].tombstone;
      var linked := LinkParts(db, m, d, chat, c.parts, c.version, tombstone);
      if linked.Err? {
        return Err(linked.error);
      }
      var acked := Deliveries.AcknowledgeTarget(linked.value, m, d, c.version, tombstone);
      if acked.Err? {
        return Err(acked.error);
      }
      var parts := acked.value;
      if d.kind.MessageRevoke? && d.target.Some? {
        parts := MarkPlatformDeleted(parts, m, d.target.value.platform);
      }
      var echoes := ReserveEchoes(db, id, c.echoKeys);
      if echoes.Err? {
        return Err(echoes.error);
      }
      return Ok(db.(parts := parts, echoes := echoes.value));
    }

    method CompleteDelivery(id: int, token: nat, c: Completion, now: int, clocks: Clocks) returns (r: Result<()>)
      modifies this`db
      ensures Commits(old(db), Deliveries.CompleteDelivery(options, old(db), id, token, c, now, clocks), db, r)
    {
      if now == ZERO_TIME || !c.version.Valid() || |c.parts| > 1024 || |c.echoKeys| > 1024 {
        return Err(Invalid);
      }
      var t := Fence(now, clocks.first);
      if !Deliveries.InFlight(db, id, token, t) {
        return Err(LeaseLost);
      }
      var recorded := RecordResult(db, id, c);
      if recorded.Err? {
        return Err(recorded.error);
      }
      if options.completionBytes(c) > MAX_EVENT_BYTES {
        return Err(Invalid);
      }
      var tx := recorded.value;
      if !Deliveries.LiveDelivery(tx, id, token, Fence(t, clocks.second)) {
        return Err(LeaseLost);
      }
      db := tx.(outbox := tx.outbox[id := tx.outbox[id].(state := Succeeded, lease := None)]);
      return Ok(());
    }

    method CompleteTopicDelivery(id: int, token: nat, topic: TopicRef, now: int, clocks: Clocks) returns (r: Result<()>)
      modifies this`db
      ensures Commits(old(db), Deliveries.CompleteTopicDelivery(old(db), id, token, topic, now, clocks), db, r)
    {
      if now == ZERO_TIME || topic.thread <= 0 || topic.chat == 0 || topic.generation <= 0 {
        return Err(Invalid);
      }
      var t := Fence(now, clocks.first);
      if !Deliveries.InFlight(db, id, token, t) {
        return Err(LeaseLost);
      }
      var bound := Deliveries.ApplyTopic(db, db.outbox[id].chat, db.outbox[id].payload, topic);
      if bound.Err? {
        return Err(bound.error);
      }
      var tx := bound.value;
      if !Deliveries.LiveDelivery(tx, id, token, Fence(t, clocks.second)) {
        return Err(LeaseLost);
      }
      db := tx.(outbox := tx.outbox[id := tx.outbox[id].(state := Succeeded, lease := None)]);
      return Ok(());
    }

    method FailDelivery(id: int, token: nat, d: Deliveries.Decision, now: int, clocks: Clocks) returns (r: Result<()>)
      modifies this`db
      ensures Commits(old(db), Deliveries.FailDelivery(old(db), id, token, d, now, clocks), db, r)
    {
      if now == ZERO_TIME || !Deliveries.ValidDecision(d, now) {
        return Err(Invalid);
      }
      var t := Fence(now, clocks.first);
      if !Deliveries.LiveDelivery(db, id, token, t) || !(db.outbox[id].state.Leased? || db.outbox[id].state.Sending?) {
        return Err(LeaseLost);
      }
      if !Deliveries.AllowedDecision(d, db.outbox[id].startedAt.Some?) {
        return Err(Invalid);
      }
      if !Deliveries.LiveDelivery(db, id, token, Fence(t, clocks.second)) {
        return Err(LeaseLost);
      }
      var row := db.outbox[id].(state := d.state, availableAt := d.availableAt, errorClass := Some(d.cause), lease := None);
      db := db.(outbox := db.outbox[id := row]);
      return Ok(());
    }

    method MatchEcho(key: EchoKey, target: Option<MessageRef>, digest: string) returns (r: Result<bool>)
      ensures r.Ok? <==> key.chat != "" && key.actor != "" && key.eventId != "" && key.kind != OtherKind("") && digest != ""
                         && (target.Some? ==> target.value.Valid())
      ensures r.Err? ==> r == Err(Invalid)
      ensures r.Ok? ==>
                var wanted := if target.Some? then Some(RefKey(target.value)) else None;
                r.value <==> exists e :: 0 <= e < |db.echoes| && db.echoes[e] == Echo(key, wanted, digest, db.echoes[e].outbox)
    {
      if !Deliveries.CompleteEcho(key, target, digest) {
        return Err(Invalid);
      }
      var wanted := if target.Some? then Some(RefKey(target.value)) else None;
      var found := false;
      for i := 0 to |db.echoes|
        invariant found <==> Deliveries.MatchEcho(db.echoes[..i], key, wanted, digest)
      {
        if db.echoes[i].key == key && db.echoes[i].target == wanted && db.echoes[i].digest == digest {
          found := true;
          assert db.echoes[..i + 1][i] == db.echoes[i];
        }
        assert db.echoes[..i + 1][..i] == db.echoes[..i];
      }
      assert db.echoes[..|db.echoes|] == db.echoes;
      return Ok(found);
    }

    // ----- timers

    method ScheduleTimer(spec: Planning.TimerSpec) returns (r: Result<nat>)
      modifies this`db
      ensures var s := Planning.ScheduleTimer(old(db), spec);
        if s.Ok? then r == Ok(s.value.id) && db == s.value.db else r == Err(s.error) && db == old(db)
    {
      if spec.message.None? || spec.message.value < 0 || !spec.version.Valid() || spec.deadline == ZERO_TIME {
        return Err(Invalid);
      }
      var m := spec.message.value;
      var known := FindTimer(db.timers, m, spec.kind, spec.version);
      if known.Some? {
        return if db.timers[known.value].deadline != spec.deadline then Err(Conflict) else Ok(known.value);
      }
      if !HasRow(db.messages, m) {
        return Err(Storage);
      }
      if !Planning.Schedulable(db.messages[m], spec.kind, spec.version) {
        return Err(Conflict);
      }
      db := db.(timers := db.timers + [Timer(m, spec.kind, spec.version, spec.deadline, TimerPending, None)]);
      return Ok(|db.timers| - 1);
    }

    method CancelObsolete() returns (tx: Db)
      ensures tx == Timers.CancelObsolete(db)
    {
      var timers := [];
      for i := 0 to |db.timers|
        invariant |timers| == i
        invariant forall k :: 0 <= k < i ==>
                    timers[k] == if Timers.Obsolete(db, db.timers[k]) then db.timers[k].(state := TimerCancelled)
                                 else db.timers[k]
      {
        var t := db.timers[i];
        timers := timers + [if Timers.Obsolete(db, t) then t.(state := TimerCancelled) else t];
      }
      tx := db.(timers := timers);
      assert tx.timers == Timers.CancelObsolete(db).timers;
    }

    method ClaimTimer(now: int, ttl: int, clock: int) returns (r: Result<ClaimedTimer>)
      modifies this
      ensures var c := Timers.ClaimTimer(old(db), old(tokens), now, ttl, clock);
        if c.Err? then r == Err(c.error) && db == old(db)
        else db == c.value.db && if c.value.id.None? then r == Err(NoWork)
             else r.Ok? && r.value.id == c.value.id.value && r.value.token == old(tokens)
                  && r.value.id < |old(db).timers| && r.value.t == old(db).timers[r.value.id]
                  && r.value.t.message < |old(db).messages| && r.value.chat == old(db).messages[r.value.t.message].chat
                  && r.value.parts == PartsOf(old(db).parts, r.value.t.message)
      ensures tokens == old(tokens) + if InboxWork.ValidLease(now, ttl) then 1 else 0
      ensures r.Ok? ==> TimerSafety.Due(old(db), r.value.id, if clock > now then clock else now)
    {
      if !InboxWork.ValidLease(now, ttl) {
        return Err(Invalid);
      }
      var token := tokens;
      tokens := tokens + 1;
      var t := Fence(now, clock);
      var tx := CancelObsolete();
      var best := None;
      for i := 0 to |tx.timers|
        invariant db == old(db) && tokens == old(tokens) + 1 && best == Timers.NextTimer(tx, t, i)
      {
        if Timers.TimerDue(tx, i, t) && (best.None? || tx.timers[i].deadline < tx.timers[best.value].deadline) {
          best := Some(i);
        }
      }
      if best.None? {
        db := tx;
        return Err(NoWork);
      }
      var id := best.value;
      TimerSafety.DueAfterCancelling(db, id, t);
      var row := tx.timers[id];
      var parts := ReadParts(db.parts, row.message);
      db := tx.(timers := tx.timers[id := row.(state := TimerLeased, lease := Some(Lease(token, t + ttl)))]);
      assert row.state == TimerPending && row == old(db).timers[id];
      return Ok(ClaimedTimer(row, tx.messages[row.message].chat, id, token, parts));
    }

    static method NeededKeys(parts: seq<Part>, m: nat) returns (needed: set<Key>)
      ensures forall k :: k in needed <==> Timers.Needed(parts, m, k)
    {
      needed := {};
      for i := 0 to |parts|
        invariant forall k :: k in needed <==>
                    exists p :: 0 <= p < i && parts[p].message == m && Timers.Removable(parts[p]) && parts[p].key == k
      {
        if parts[i].message == m && Timers.Removable(parts[i]) {
          needed := needed + {parts[i].key};
        }
      }
    }

    /** The targets must use up the needed parts exactly: each target is taken out of the set, and nothing may be left. */
    static method CheckCover(parts: seq<Part>, m: nat, ds: seq<Delivery>) returns (covered: bool)
      ensures covered == Timers.Covers(parts, m, ds)
    {
      var needed := NeededKeys(parts, m);
      ghost var all := needed;
      for i := 0 to |ds|
        invariant forall j :: 0 <= j < i ==> ds[j].target.Some? && RefKey(ds[j].target.value) in all
        invariant forall j, k :: 0 <= j < k < i ==> TargetOf(ds[j]) != TargetOf(ds[k])
        invariant forall k :: k in needed <==> k in all && forall j :: 0 <= j < i ==> TargetOf(ds[j]) != Some(k)
      {
        if ds[i].target.None? || RefKey(ds[i].target.value) !in needed {
          return false;
        }
        needed := needed - {RefKey(ds[i].target.value)};
      }
      covered := needed == {};
      CoverSpent(parts, m, ds, all, needed);
    }

    /** After all targets were taken, nothing is left exactly when the targets cover the removable parts. */
    static lemma CoverSpent(parts: seq<Part>, m: nat, ds: seq<Delivery>, all: set<Key>, left: set<Key>)
      requires forall k :: k in all <==> Timers.Needed(parts, m, k)
      requires forall j :: 0 <= j < |ds| ==> ds[j].target.Some? && RefKey(ds[j].target.value) in all
      requires forall j, k :: 0 <= j < k < |ds| ==> TargetOf(ds[j]) != TargetOf(ds[k])
      requires forall k :: k in left <==> k in all && forall j :: 0 <= j < |ds| ==> TargetOf(ds[j]) != Some(k)
      ensures (left == {}) == Timers.Covers(parts, m, ds)
    {
      if left == {} {
        forall p | 0 <= p < |parts| && parts[p].message == m && Timers.Removable(parts[p])
          ensures exists i :: 0 <= i < |ds| && TargetOf(ds[i]) == Some(parts[p].key)
        {
          assert Timers.Needed(parts, m, parts[p].key) && parts[p].key !in left;
        }
      } else {
        var k :| k in left;
        assert Timers.Needed(parts, m, k);
      }
    }

    method InsertRevokes(db: Db, t: Timer, chat: nat, inbox: nat, ds: seq<Delivery>, now: int) returns (r: Result<Db>)
      ensures r == Timers.InsertRevokes(options, db, t, chat, inbox, ds, now)
    {
      var tx := db;
      for i := 0 to |ds|
        invariant Timers.InsertRevokes(options, db, t, chat, inbox, ds[..i], now) == Ok(tx)
      {
        assert ds[..i + 1][..i] == ds[..i];
        var inserted :=
          if !Timers.RevokeIntent(t, chat, ds[i]) then Err(Invalid)
          else if !Timers.OwnedTarget(tx.parts, t.message, ds[i]) then Err(Conflict)
          else Planning.InsertDelivery(options, tx, inbox, ds[i], Some(t.message), now);
        if inserted.Err? {
          InsertRevokesFails(options, db, t, chat, inbox, ds, now, i + 1);
          return inserted;
        }
        tx := inserted.value;
      }
      assert ds[..|ds|] == ds;
      return Ok(tx);
    }

    /** The revokes and the deletion of an expiry, in a working copy. */
    method ApplyTimer(db: Db, t: Timer, ds: seq<Delivery>, now: int) returns (r: Result<Db>)
      requires HasRow(db.messages, t.message)
      ensures r == Timers.ApplyTimer(options, db, t, ds, now)
    {
      var m := t.message;
      if !Planning.Schedulable(db.messages[m], t.kind, t.version) {
        return Err(Conflict);
      }
      if t.kind.Expire? {
        var covered := CheckCover(db.parts, m, ds);
        if !covered {
          return Err(Conflict);
        }
      }
      var inbox := 0;
      if ds != [] {
        var origin := Timers.OriginInbox(db.outbox, m);
        if origin.None? {
          return Err(Storage);
        }
        inbox := origin.value;
      }
      var planned := InsertRevokes(db, t, db.messages[m].chat, inbox, ds, now);
      if planned.Err? {
        return planned;
      }
      var tx := planned.value;
      if !HasRow(tx.messages, m) {
        return Err(Storage);
      }
      if t.kind.Expire? {
        tx := EntombMessage(tx.(messages := tx.messages[m := tx.messages[m].(text := None)]), m);
      }
      return Ok(tx);
    }

    method CompleteTimer(id: int, token: nat, ds: seq<Delivery>, now: int, clocks: Clocks) returns (r: Result<()>)
      modifies this`db
      ensures Commits(old(db), Timers.CompleteTimer(options, old(db), id, token, ds, now, clocks), db, r)
      ensures r.Ok? ==> HasRow(old(db).timers, id) && old(db).timers[id].message < |old(db).messages|
      ensures r.Ok? ==>
                var t, m := old(db).timers[id], old(db).messages[old(db).timers[id].message];
                m.version == t.version && !m.tombstone && (t.kind == Expire ==> !m.kept)
    {
      if Timers.CompleteTimer(options, db, id, token, ds, now, clocks).Ok? {
        TimerSafety.CompletedTimerIsCurrent(options, db, id, token, ds, now, clocks);
      }
      if now == ZERO_TIME {
        return Err(Invalid);
      }
      var t := Fence(now, clocks.first);
      if !Timers.LiveTimer(db, id, token, t) || !HasRow(db.messages, db.timers[id].message) {
        return Err(LeaseLost);
      }
      var applied := ApplyTimer(db, db.timers[id], ds, t);
      if applied.Err? {
        return Err(applied.error);
      }
      var tx := applied.value;
      if !Timers.LiveTimer(tx, id, token, Fence(t, clocks.second)) {
        return Err(LeaseLost);
      }
      db := tx.(timers := tx.timers[id := tx.timers[id].(state := TimerDone, lease := None)]);
      return Ok(());
    }

    method SetKept(ref: MessageRef, expected: SourceVersion, kept: bool) returns (r: Result<()>)
      modifies this`db
      ensures Commits(old(db), Timers.SetKept(old(db), ref, expected, kept), db, r)
    {
      if !ref.Valid() || !expected.Valid() {
        return Err(Invalid);
      }
      var p := FindPart(db.parts, RefKey(ref));
      if p.None? || !HasRow(db.messages, db.parts[p.value].message) {
        return Err(Conflict);
      }
      var m := db.parts[p.value].message;
      if db.messages[m].version != expected || db.messages[m].tombstone {
        return Err(Conflict);
      }
      db := db.(messages := db.messages[m := db.messages[m].(kept := kept)]);
      return Ok(());
    }

    // ----- chats and mappings

    method DiscoverChat(c: Chats.Candidate, tgChat: int) returns (r: Result<()>)
      modifies this`db
      ensures Commits(old(db), Chats.DiscoverChat(old(db), c, tgChat), db, r)
    {
      if !Chats.ValidCandidate(c, tgChat) {
        return Err(Invalid);
      }
      var known := FindChat(db.chats, c.jid);
      if known.None? {
        var row := Chat(c.jid, tgChat, None, 0, Discovered, c.title, c.source, c.historyPartial);
        db := db.(chats := db.chats + [row]);
        return Ok(());
      }
      var row := db.chats[known.value];
      if row.tgChat != tgChat {
        return Err(Conflict);
      }
      row := row.(title := c.title, historyPartial := row.historyPartial || c.historyPartial);
      db := db.(chats := db.chats[known.value := row]);
      return Ok(());
    }

    method BindTopic(jid: string, topic: TopicRef) returns (r: Result<()>)
      modifies this`db
      ensures Commits(old(db), Chats.BindTopic(old(db), jid, topic), db, r)
    {
      if topic.chat == 0 || topic.thread <= 0 || topic.generation <= 0 {
        return Err(Invalid);
      }
      var known := FindChat(db.chats, jid);
      if known.None? {
        return Err(NoWork);
      }
      var c := db.chats[known.value];
      if c.tgChat != topic.chat {
        return Err(Conflict);
      }
      if c.generation == topic.generation && c.topic == Some(topic.thread) {
        return Ok(());
      }
      if topic.generation != c.generation + 1
         || (c.topic.Some? && c.state != Missing && c.state != UncertainTopic && c.state != BlockedTopic)
         || Deliveries.TopicTaken(db.chats, known.value, topic)
      {
        return Err(Conflict);
      }
      c := c.(topic := Some(topic.thread), generation := topic.generation, state := Active);
      db := db.(chats := db.chats[known.value := c]);
      return Ok(());
    }

    method SetChatState(chat: int, generation: int, state: ChatState) returns (r: Result<()>)
      modifies this`db
      ensures Commits(old(db), Chats.SetChatState(old(db), chat, generation, state), db, r)
    {
      if state.Discovered? {
        return Err(Invalid);
      }
      if !HasRow(db.chats, chat) || db.chats[chat].generation != generation
         || (state.Active? && db.chats[chat].topic.None?)
      {
        return Err(Conflict);
      }
      db := db.(chats := db.chats[chat := db.chats[chat].(state := state)]);
      return Ok(());
    }

    method RetirePart(ref: MessageRef, expected: SourceVersion) returns (r: Result<()>)
      modifies this`db
      ensures Commits(old(db), Chats.RetirePart(old(db), ref, expected), db, r)
    {
      if !ref.Valid() || !expected.Valid() {
        return Err(Invalid);
      }
      var p := FindPart(db.parts, RefKey(ref));
      if p.None? || db.parts[p.value].version != expected {
        return Err(Conflict);
      }
      db := db.(parts := db.parts[p.value := db.parts[p.value].(retired := true)]);
      return Ok(());
    }

    method TombstoneMessage(m: int) returns (r: Result<()>)
      modifies this`db
      ensures Commits(old(db), Chats.TombstoneMessage(old(db), m), db, r)
    {
      if m < 0 {
        return Err(Invalid);
      }
      if HasRow(db.messages, m) {
        db := EntombMessage(db, m);
      }
      return Ok(());
    }
  }
}
