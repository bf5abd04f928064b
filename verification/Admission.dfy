/** Durable admission of source events: `internal/store/admission.go`. */
module Admission {
  import opened Prelude
  import opened Domain
  import opened Database

  function AdmissionKey(e: Event): DedupeKey {
    DedupeKey(e.source, e.chat, if e.target.Some? then e.target.value.author else "",
              if e.target.Some? then e.target.value.id else "", e.actor, e.key, e.version.epoch)
  }

  function TargetKeyOf(e: Event): TargetKey {
    if e.target.Some? then RefTarget(RefKey(e.target.value)) else ChatTarget(e.source, e.chat)
  }

  /** Rows that count against the inbox caps. */
  predicate InboxUnresolved(r: InboxRow) {
    !r.state.InboxDone?
  }

  function InboxSize(o: Options, r: InboxRow): nat {
    if InboxUnresolved(r) then o.eventBytes(r.payload) else 0
  }

  function InboxCounts(inbox: seq<InboxRow>): (w: seq<nat>)
    ensures |w| == |inbox| && forall i :: 0 <= i < |w| ==> w[i] == if InboxUnresolved(inbox[i]) then 1 else 0
  {
    seq(|inbox|, i requires 0 <= i < |inbox| => if InboxUnresolved(inbox[i]) then 1 else 0)
  }

  function InboxBytes(o: Options, inbox: seq<InboxRow>): (w: seq<nat>)
    ensures |w| == |inbox| && forall i :: 0 <= i < |w| ==> w[i] == InboxSize(o, inbox[i])
  {
    seq(|inbox|, i requires 0 <= i < |inbox| => InboxSize(o, inbox[i]))
  }

  datatype Admitted = Admitted(inbox: seq<InboxRow>, id: nat, inserted: bool)

  function NewInboxRow(e: Event, clock: int): InboxRow {
    InboxRow(AdmissionKey(e), TargetKeyOf(e), e, if e.kind.KnownEvent() then InboxPending else Quarantined, clock, None)
  }

  function Accept(o: Options, inbox: seq<InboxRow>, e: Event, clock: int): Result<Admitted> {
    if !e.Valid() || o.eventBytes(e) > MAX_EVENT_BYTES then Err(Invalid)
    else
      var known := FindInbox(inbox, AdmissionKey(e));
      if known.Some? then
        if inbox[known.value].payload != e then Err(Conflict) else Ok(Admitted(inbox, known.value, false))
      else if Total(InboxCounts(inbox)) >= o.maxInboxCount
              || o.eventBytes(e) > o.maxInboxBytes - Total(InboxBytes(o, inbox)) then Err(Saturated)
      else Ok(Admitted(inbox + [NewInboxRow(e, clock)], |inbox|, true))
  }

  function AcceptAll(o: Options, inbox: seq<InboxRow>, events: seq<Event>, epoch: string, clock: int)
    : Result<seq<InboxRow>>
  {
    if events == [] then Ok(inbox)
    else
      var before :- AcceptAll(o, inbox, events[..|events| - 1], epoch, clock);
      var e := events[|events| - 1];
      if e.source != Telegram || e.version.epoch != epoch then Err(Invalid)
      else
        var a :- Accept(o, before, e, clock);
        Ok(a.inbox)
  }

  /** All events and the new cursor commit together or not at all. */
  function AcceptTelegramBatch(o: Options, db: Db, events: seq<Event>, next: int, epoch: string, clock: int): Result<Db> {
    if next < 0 || epoch == "" || |epoch| > 256 || |events| > o.maxInboxCount then Err(Invalid)
    else if db.cursor.Some? && (epoch != db.cursor.value.epoch || next < db.cursor.value.next) then Err(Conflict)
    else
      var inbox :- AcceptAll(o, db.inbox, events, epoch, clock);
      Ok(db.(inbox := inbox, cursor := Some(Cursor(next, epoch))))
  }
}
