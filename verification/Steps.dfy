/** One committed or refused call of any store operation, by any worker, with any arguments and clocks. */
module Steps {
  import opened Prelude
  import opened Domain
  import opened Database
  import opened Admission
  import opened InboxWork
  import opened Planning
  import opened Deliveries
  import opened Timers
  import opened Chats
  import opened Queues
  import opened QuietTransactions
  import opened Evolution

  datatype Step =
    | AcceptEvent(e: Event, clock: int)
    | AcceptBatch(events: seq<Event>, next: int, epoch: string, clock: int)
    | ClaimInboxStep(now: int, ttl: int, clock: int)
    | DeferStep(id: int, token: nat, availableAt: int, now: int, clock: int)
    | CompleteInboxStep(id: int, token: nat, now: int, clock: int)
    | QuarantineStep(id: int, token: nat, now: int, clock: int)
    | PlanStep(e: Event, id: int, token: nat, ds: seq<Delivery>, timers: seq<TimerSpec>, now: int, clocks: Clocks)
    | RecoverStep(now: int)
    | ClaimDeliveryStep(now: int, ttl: int, clock: int)
    | BeginStep(id: int, token: nat, now: int, clocks: Clocks)
    | CompleteStep(id: int, token: nat, c: Completion, now: int, clocks: Clocks)
    | CompleteTopicStep(id: int, token: nat, topic: TopicRef, now: int, clocks: Clocks)
    | FailStep(id: int, token: nat, d: Decision, now: int, clocks: Clocks)
    | ScheduleStep(spec: TimerSpec)
    | ClaimTimerStep(now: int, ttl: int, clock: int)
    | CompleteTimerStep(id: int, token: nat, ds: seq<Delivery>, now: int, clocks: Clocks)
    | KeepStep(ref: MessageRef, expected: SourceVersion, kept: bool)
    | DiscoverStep(candidate: Candidate, tgChat: int)
    | BindStep(jid: string, topic: TopicRef)
    | ChatStateStep(chat: int, generation: int, state: ChatState)
    | RetireStep(ref: MessageRef, expected: SourceVersion)
    | TombstoneStep(message: int)

  predicate ClaimStep(s: Step) {
    s.ClaimInboxStep? || s.ClaimDeliveryStep? || s.ClaimTimerStep?
  }

  function AcceptOutcome(o: Options, db: Db, e: Event, clock: int): Result<Db> {
    var a :- Accept(o, db.inbox, e, clock);
    Ok(db.(inbox := a.inbox))
  }

  function ClaimOutcome(c: Result<Claim>): Result<Db> {
    var claim :- c;
    Ok(claim.db)
  }

  function TimerClaimOutcome(c: Result<TimerClaim>): Result<Db> {
    var claim :- c;
    Ok(claim.db)
  }

  function ScheduleOutcome(s: Result<Scheduled>): Result<Db> {
    var scheduled :- s;
    Ok(scheduled.db)
  }

  /** The committed database, or why the call was refused; `token` is the fencing token a claim would hand out. */
  ghost function Outcome(o: Options, db: Db, token: nat, s: Step): Result<Db> {
    match s
    case AcceptEvent(e, clock) => AcceptOutcome(o, db, e, clock)
    case AcceptBatch(events, next, epoch, clock) => AcceptTelegramBatch(o, db, events, next, epoch, clock)
    case ClaimInboxStep(now, ttl, clock) => ClaimOutcome(ClaimInbox(db, token, now, ttl, clock))
    case DeferStep(id, t, at, now, clock) => DeferInbox(db, id, t, at, now, clock)
    case CompleteInboxStep(id, t, now, clock) => FinishInbox(db, id, t, InboxDone, now, clock)
    case QuarantineStep(id, t, now, clock) => FinishInbox(db, id, t, Quarantined, now, clock)
    case PlanStep(e, id, t, ds, timers, now, clocks) => PlanEvent(o, db, e, id, t, ds, timers, now, clocks)
    case RecoverStep(now) => RecoverExpiredLeases(db, now)
    case ClaimDeliveryStep(now, ttl, clock) => ClaimOutcome(ClaimDelivery(db, token, now, ttl, clock))
    case BeginStep(id, t, now, clocks) => BeginSend(db, id, t, now, clocks)
    case CompleteStep(id, t, c, now, clocks) => CompleteDelivery(o, db, id, t, c, now, clocks)
    case CompleteTopicStep(id, t, topic, now, clocks) => CompleteTopicDelivery(db, id, t, topic, now, clocks)
    case FailStep(id, t, d, now, clocks) => FailDelivery(db, id, t, d, now, clocks)
    case ScheduleStep(spec) => ScheduleOutcome(ScheduleTimer(db, spec))
    case ClaimTimerStep(now, ttl, clock) => TimerClaimOutcome(ClaimTimer(db, token, now, ttl, clock))
    case CompleteTimerStep(id, t, ds, now, clocks) => CompleteTimer(o, db, id, t, ds, now, clocks)
    case KeepStep(ref, expected, kept) => SetKept(db, ref, expected, kept)
    case DiscoverStep(c, tgChat) => DiscoverChat(db, c, tgChat)
    case BindStep(jid, topic) => BindTopic(db, jid, topic)
    case ChatStateStep(chat, generation, state) => SetChatState(db, chat, generation, state)
    case RetireStep(ref, expected) => RetirePart(db, ref, expected)
    case TombstoneStep(m) => TombstoneMessage(db, m)
  }

  /** The database after the step: a refused call changes nothing. */
  ghost function After(o: Options, db: Db, token: nat, s: Step): Db {
    var r := Outcome(o, db, token, s);
    if r.Ok? then r.value else db
  }

  /** The steps of the outbox protocol. */
  predicate SendStep(s: Step) {
    s.ClaimDeliveryStep? || s.BeginStep? || s.CompleteStep? || s.CompleteTopicStep? || s.FailStep?
  }

  /** The steps that touch chats or a part's retirement only. */
  predicate ChatStep(s: Step) {
    s.DiscoverStep? || s.BindStep? || s.ChatStateStep? || s.RetireStep?
  }

  /** The steps that admit events or settle them without a plan. */
  predicate InboxStep(s: Step) {
    s.AcceptEvent? || s.AcceptBatch? || s.DeferStep? || s.CompleteInboxStep? || s.QuarantineStep?
  }

  lemma SendStepFrame(o: Options, db: Db, token: nat, s: Step)
    requires SendStep(s)
    ensures var b := After(o, db, token, s);
      b == db.(chats := b.chats, parts := b.parts, outbox := b.outbox, echoes := b.echoes)
  {
    if s.CompleteStep? && Outcome(o, db, token, s).Ok? {
      RecordResultFrame(db, s.id, s.c);
    }
  }

  lemma ChatStepFrame(o: Options, db: Db, token: nat, s: Step)
    requires ChatStep(s)
    ensures var b := After(o, db, token, s); b == db.(chats := b.chats, parts := b.parts)
  {
  }

  lemma QuietReflexive(db: Db)
    ensures Quiet(db, db)
  {
  }

  lemma SendStepIsQuiet(o: Options, db: Db, token: nat, s: Step)
    requires LeaseShape(db) && SendStep(s) && !ClaimStep(s) && Outcome(o, db, token, s).Ok?
    ensures Quiet(db, After(o, db, token, s))
  {
    match s
    case BeginStep(id, t, now, clocks) => BeginSendQuiet(db, id, t, now, clocks);
    case CompleteStep(id, t, c, now, clocks) => CompleteDeliveryQuiet(o, db, id, t, c, now, clocks);
    case CompleteTopicStep(id, t, topic, now, clocks) => CompleteTopicDeliveryQuiet(db, id, t, topic, now, clocks);
    case FailStep(id, t, d, now, clocks) => FailDeliveryQuiet(db, id, t, d, now, clocks);
  }

  lemma InboxStepIsQuiet(o: Options, db: Db, token: nat, s: Step)
    requires LeaseShape(db) && InboxStep(s) && Outcome(o, db, token, s).Ok?
    ensures Quiet(db, After(o, db, token, s))
  {
    QuietReflexive(db);
    match s
    case AcceptEvent(e, clock) => AcceptExtends(o, db.inbox, e, clock);
    case AcceptBatch(events, next, epoch, clock) => AcceptAllExtends(o, db.inbox, events, epoch, clock);
    case DeferStep(id, t, at, now, clock) => ReleaseQuiet(db, id, InboxPending, at);
    case CompleteInboxStep(id, t, now, clock) => ReleaseQuiet(db, id, InboxDone, db.inbox[id].availableAt);
    case QuarantineStep(id, t, now, clock) => ReleaseQuiet(db, id, Quarantined, db.inbox[id].availableAt);
  }

  lemma OtherStepIsQuiet(o: Options, db: Db, token: nat, s: Step)
    requires LeaseShape(db) && !SendStep(s) && !ChatStep(s) && !InboxStep(s) && !ClaimStep(s) && Outcome(o, db, token, s).Ok?
    ensures Quiet(db, After(o, db, token, s))
  {
    QuietReflexive(db);
    match s
    case PlanStep(e, id, t, ds, timers, now, clocks) => PlanEventQuiet(o, db, e, id, t, ds, timers, now, clocks);
    case RecoverStep(now) => RecoverQuiet(db, now);
    case CompleteTimerStep(id, t, ds, now, clocks) => CompleteTimerQuiet(o, db, id, t, ds, now, clocks);
    case TombstoneStep(m) => TombstoneQuiet(db, m);
    case _ =>
  }

  lemma StepIsQuiet(o: Options, db: Db, token: nat, s: Step)
    requires LeaseShape(db) && !ClaimStep(s) && Outcome(o, db, token, s).Ok?
    ensures Quiet(db, After(o, db, token, s))
  {
    if SendStep(s) {
      SendStepIsQuiet(o, db, token, s);
    } else if ChatStep(s) {
      QuietReflexive(db);
      ChatStepFrame(o, db, token, s);
    } else if InboxStep(s) {
      InboxStepIsQuiet(o, db, token, s);
    } else {
      OtherStepIsQuiet(o, db, token, s);
    }
  }

  lemma SendStepGrows(o: Options, db: Db, token: nat, s: Step)
    requires SendStep(s) && Outcome(o, db, token, s).Ok?
    ensures Grows(db, After(o, db, token, s))
  {
    match s
    case BeginStep(id, t, now, clocks) => BeginSendGrows(db, id, t, now, clocks);
    case CompleteStep(id, t, c, now, clocks) => CompleteDeliveryGrows(o, db, id, t, c, now, clocks);
    case CompleteTopicStep(id, t, topic, now, clocks) => CompleteTopicGrows(db, id, t, topic, now, clocks);
    case _ => FrameGrows(db, After(o, db, token, s));
  }

  lemma ChatStepGrows(o: Options, db: Db, token: nat, s: Step)
    requires ChatStep(s) && Outcome(o, db, token, s).Ok?
    ensures Grows(db, After(o, db, token, s))
  {
    match s
    case DiscoverStep(c, tgChat) => DiscoverGrows(db, c, tgChat);
    case BindStep(jid, topic) => BindTopicGrows(db, jid, topic);
    case ChatStateStep(chat, generation, state) => ChatStateGrows(db, chat, generation, state);
    case RetireStep(ref, expected) => RetireGrows(db, ref, expected);
  }

  lemma OtherStepGrows(o: Options, db: Db, token: nat, s: Step)
    requires !SendStep(s) && !ChatStep(s) && Outcome(o, db, token, s).Ok?
    ensures Grows(db, After(o, db, token, s))
  {
    match s
    case AcceptBatch(events, next, epoch, clock) => BatchGrows(o, db, events, next, epoch, clock);
    case PlanStep(e, id, t, ds, timers, now, clocks) => PlanEventGrows(o, db, e, id, t, ds, timers, now, clocks);
    case CompleteTimerStep(id, t, ds, now, clocks) => ApplyTimerGrows(o, db, db.timers[id], ds, Fence(now, clocks.first));
    case KeepStep(ref, expected, kept) => KeepGrows(db, ref, expected, kept);
    case TombstoneStep(m) => TombstoneGrows(db, m);
    case _ => FrameGrows(db, After(o, db, token, s));
  }

  lemma StepGrows(o: Options, db: Db, token: nat, s: Step)
    ensures Grows(db, After(o, db, token, s))
  {
    if Outcome(o, db, token, s).Err? {
      FrameGrows(db, db);
    } else if SendStep(s) {
      SendStepGrows(o, db, token, s);
    } else if ChatStep(s) {
      ChatStepGrows(o, db, token, s);
    } else {
      OtherStepGrows(o, db, token, s);
    }
  }

  lemma LeaseInboxGrows(db: Db, i: nat, lease: Lease)
    requires LeaseShape(db) && i < |db.inbox| && db.inbox[i].state.InboxPending?
    ensures QueuesGrow(db, LeaseInbox(db, i, lease)) && LeaseShape(LeaseInbox(db, i, lease))
  {
  }

  lemma LeaseDeliveryGrows(db: Db, i: nat, lease: Lease)
    requires LeaseShape(db) && i < |db.outbox| && db.outbox[i].state.Pending?
    ensures QueuesGrow(db, LeaseDelivery(db, i, lease)) && LeaseShape(LeaseDelivery(db, i, lease))
  {
  }

  lemma LeaseTimerGrows(db: Db, i: nat, lease: Lease)
    requires LeaseShape(db) && i < |db.timers| && db.timers[i].state.TimerPending?
    ensures QueuesGrow(db, LeaseTimer(db, i, lease)) && LeaseShape(LeaseTimer(db, i, lease))
  {
  }

  lemma ClaimTimerGrows(db: Db, token: nat, now: int, ttl: int, clock: int)
    requires LeaseShape(db) && ClaimTimer(db, token, now, ttl, clock).Ok?
    ensures var b := ClaimTimer(db, token, now, ttl, clock).value.db; QueuesGrow(db, b) && LeaseShape(b)
  {
    var kept, t := CancelObsolete(db), Fence(now, clock);
    CancelQuiet(db);
    QuietKeepsShape(db, kept);
    QuietQueuesGrow(db, kept);
    var next := NextTimer(kept, t, |kept.timers|);
    if next.Some? {
      LeaseTimerGrows(kept, next.value, Lease(token, t + ttl));
      QueuesGrowTransitive(db, kept, LeaseTimer(kept, next.value, Lease(token, t + ttl)));
    }
  }

  lemma ClaimRowGrows(o: Options, db: Db, token: nat, s: Step)
    requires LeaseShape(db) && (s.ClaimInboxStep? || s.ClaimDeliveryStep?) && Outcome(o, db, token, s).Ok?
    ensures QueuesGrow(db, After(o, db, token, s)) && LeaseShape(After(o, db, token, s))
  {
    var t := Fence(s.now, s.clock);
    if s.ClaimInboxStep? {
      LeaseInboxGrows(db, NextInbox(db, t).value, Lease(token, t + s.ttl));
    } else {
      LeaseDeliveryGrows(db, NextDelivery(db, t).value, Lease(token, t + s.ttl));
    }
  }

  /** A claim leases one pending row with the fresh token, and a timer claim also cancels obsolete timers. */
  lemma ClaimIsLease(o: Options, db: Db, token: nat, s: Step)
    requires LeaseShape(db) && ClaimStep(s) && Outcome(o, db, token, s).Ok?
    ensures QueuesGrow(db, After(o, db, token, s)) && LeaseShape(After(o, db, token, s))
  {
    if s.ClaimTimerStep? {
      ClaimTimerGrows(db, token, s.now, s.ttl, s.clock);
    } else {
      ClaimRowGrows(o, db, token, s);
    }
  }

  lemma StepKeepsShape(o: Options, db: Db, token: nat, s: Step)
    requires LeaseShape(db)
    ensures LeaseShape(After(o, db, token, s)) && Evolves(db, After(o, db, token, s))
  {
    StepGrows(o, db, token, s);
    if Outcome(o, db, token, s).Err? {
      QuietReflexive(db);
      QuietQueuesGrow(db, db);
    } else if ClaimStep(s) {
      ClaimIsLease(o, db, token, s);
    } else {
      StepIsQuiet(o, db, token, s);
      QuietKeepsShape(db, After(o, db, token, s));
      QuietQueuesGrow(db, After(o, db, token, s));
    }
  }

  lemma ClaimFrame(o: Options, db: Db, token: nat, s: Step)
    requires (s.ClaimInboxStep? || s.ClaimTimerStep?) && Outcome(o, db, token, s).Ok?
    ensures After(o, db, token, s).outbox == db.outbox
  {
  }

  lemma StepKeepsSchedule(o: Options, db: Db, token: nat, s: Step)
    requires LeaseShape(db) && Schedule(db.outbox)
    ensures Schedule(After(o, db, token, s).outbox)
  {
    if Outcome(o, db, token, s).Ok? {
      if s.ClaimDeliveryStep? {
        var t := Fence(s.now, s.clock);
        ClaimKeepsSchedule(db, NextDelivery(db, t).value, Lease(token, t + s.ttl), t);
      } else if ClaimStep(s) {
        ClaimFrame(o, db, token, s);
      } else {
        StepIsQuiet(o, db, token, s);
        QuietKeepsSchedule(db.outbox, After(o, db, token, s).outbox);
      }
    }
  }

  lemma StepKeepsExclusive(o: Options, db: Db, token: nat, s: Step)
    requires LeaseShape(db) && InboxExclusive(db.inbox)
    ensures InboxExclusive(After(o, db, token, s).inbox)
  {
    if Outcome(o, db, token, s).Ok? {
      if s.ClaimInboxStep? {
        var t := Fence(s.now, s.clock);
        ClaimKeepsExclusive(db, NextInbox(db, t).value, Lease(token, t + s.ttl), t);
      } else if !ClaimStep(s) {
        StepIsQuiet(o, db, token, s);
        QuietKeepsExclusive(db.inbox, After(o, db, token, s).inbox);
      }
    }
  }
}
