/**
 * Three concrete runs from the empty store that show what the bridge does not promise: begun edits that go back, two
 * leased events that become aliases, and an expiry that is always refused.
 */
module Scenarios {
  import opened Prelude
  import opened Domain
  import opened Database
  import opened Admission
  import opened InboxWork
  import opened Planning
  import opened Deliveries
  import opened Timers
  import opened Chats
  import opened Steps
  import opened Runs
  import opened Guarantees
  import opened Aliasing
  import opened BridgeStore
  import opened Expiries
  import opened ExpiryCondition

  // ----- reaching a state step by step

  const OPTIONS := Options(100, 100, 100, 100, (e: Event) => 1, (d: Delivery) => 1, (c: Completion) => 1)

  /** The world after a sequence of steps. */
  type Run = seq<Step> -> World

  ghost predicate IsRun(run: Run) {
    run([]) == START && forall steps: seq<Step>, s: Step :: run(steps + [s]) == Apply(OPTIONS, run(steps), s)
  }

  ghost function StoreRun(): Run {
    (steps: seq<Step>) => Execute(OPTIONS, START, steps)
  }

  lemma StoreRuns()
    ensures IsRun(StoreRun())
  {
    forall steps: seq<Step>, s: Step ensures StoreRun()(steps + [s]) == Apply(OPTIONS, StoreRun()(steps), s) {
      assert (steps + [s])[..|steps|] == steps;
    }
  }

  ghost predicate Arrives(w: World, db: Db, tokens: nat, begun: seq<Begun>) {
    w.db == db && |w.issued| == tokens && w.begun == begun
  }

  ghost predicate Reaches(run: Run, db: Db, tokens: nat, begun: seq<Begun>) {
    exists steps: seq<Step> :: Arrives(run(steps), db, tokens, begun)
  }

  lemma ReachesStart(run: Run)
    requires IsRun(run)
    ensures Reaches(run, EMPTY, 0, [])
  {
    assert Arrives(run([]), EMPTY, 0, []);
  }

  lemma NextState(run: Run, db: Db, tokens: nat, begun: seq<Begun>, s: Step, b: Db)
    requires IsRun(run) && Reaches(run, db, tokens, begun) && Outcome(OPTIONS, db, tokens, s) == Ok(b) && !s.BeginStep?
    ensures Reaches(run, b, tokens + (if ClaimStep(s) then 1 else 0), begun)
  {
    var steps: seq<Step> :| Arrives(run(steps), db, tokens, begun);
    assert Arrives(run(steps + [s]), b, tokens + (if ClaimStep(s) then 1 else 0), begun);
  }

  lemma NextBegin(run: Run, db: Db, tokens: nat, begun: seq<Begun>, s: Step, b: Db, x: Begun)
    requires IsRun(run) && Reaches(run, db, tokens, begun)
    requires s.BeginStep? && BeginSend(db, s.id, s.token, s.now, s.clocks) == Ok(b)
    requires HasRow(db.outbox, s.id) && BegunRow(db, s.id) == x
    ensures Reaches(run, b, tokens, begun + [x])
  {
    var steps: seq<Step> :| Arrives(run(steps), db, tokens, begun);
    assert Arrives(run(steps + [s]), b, tokens, begun + [x]);
  }

  /** A run of the store ends in this database, with these sends begun. */
  ghost predicate Reachable(db: Db, begun: seq<Begun>) {
    exists steps: seq<Step> ::
      Execute(OPTIONS, START, steps).db == db && Execute(OPTIONS, START, steps).begun == begun
  }

  lemma ReachesIsReachable(db: Db, tokens: nat, begun: seq<Begun>)
    requires Reaches(StoreRun(), db, tokens, begun)
    ensures Reachable(db, begun)
  {
    var steps: seq<Step> :| Arrives(StoreRun()(steps), db, tokens, begun);
    assert Execute(OPTIONS, START, steps).db == db;
  }

  lemma {:induction false} TotalAtMost(w: seq<nat>)
    requires forall i :: 0 <= i < |w| ==> w[i] <= 1
    ensures Total(w) <= |w|
  {
    if w != [] {
      TotalAtMost(w[..|w| - 1]);
    }
  }

  // ----- a Telegram message bridged to WhatsApp

  const GROUP := -5

  const NOW := 100

  const UNTIL := 1100

  const CLOCKS := Clocks(0, 0, 0)

  function Version(kind: string, order: nat): SourceVersion {
    SourceVersion(kind, order, "", "d", "")
  }

  const CREATED := Version("telegram.message", 10)

  const SOURCE := MessageRef(Telegram, "-5", "u", "5", "")

  const CREATE := Event("1", Telegram, MessageCreate, "-5", Some(SOURCE), "u", 0, CREATED, None, "", "", 7)

  const TO_WHATSAPP := Delivery("op:0", WhatsApp, MessageCreate, 0, 1, None, None, None, CREATED, None, "s0", "j", "")

  const DISCOVERED := Chat("j", GROUP, None, 0, Discovered, "", "sync", false)

  const CHAT := DISCOVERED.(topic := Some(7), generation := 1, state := Active)

  function Admitted(e: Event): InboxRow {
    InboxRow(AdmissionKey(e), TargetKeyOf(e), e, InboxPending, 0, None)
  }

  function InWork(e: Event, token: nat): InboxRow {
    Admitted(e).(state := InboxLeased, lease := Some(Lease(token, UNTIL)))
  }

  function Planned(e: Event): InboxRow {
    Admitted(e).(state := InboxDone)
  }

  const MESSAGE := Message(0, Telegram, "u", RefKey(SOURCE), NOW, false, CREATED, None, false)

  const SOURCE_PART := Part(0, RefKey(SOURCE), 0, Primary, false, {CanReact}, 1, false, false, CREATED, false)

  function Waiting(inbox: nat, d: Delivery): OutboxRow
    requires d.chat >= 0
  {
    OutboxRow(inbox, d.chat, Some(0), d.operationKey, d.platform, d.kind, None, d.generation, d.(message := Some(0)),
              d.sendId, Pending, NOW, None, None, None)
  }

  function Held(inbox: nat, d: Delivery, token: nat): OutboxRow
    requires d.chat >= 0
  {
    Waiting(inbox, d).(state := Leased, lease := Some(Lease(token, UNTIL)))
  }

  function InFlightRow(inbox: nat, d: Delivery, token: nat): OutboxRow
    requires d.chat >= 0
  {
    Held(inbox, d, token).(state := Sending, startedAt := Some(NOW))
  }

  function SentRow(inbox: nat, d: Delivery): OutboxRow
    requires d.chat >= 0
  {
    Waiting(inbox, d).(state := Succeeded, startedAt := Some(NOW))
  }

  function ReservedFor(d: Delivery, row: nat): Echo {
    Echo(EchoKey(WhatsApp, "j", "j", d.sendId, d.kind), TargetOf(d), d.version.digest, row)
  }

  const BOUND := EMPTY.(chats := [CHAT])

  const BRIDGED := BOUND.(inbox := [Planned(CREATE)], messages := [MESSAGE], parts := [SOURCE_PART],
                          outbox := [Waiting(0, TO_WHATSAPP)])

  const SENDING := BRIDGED.(outbox := [InFlightRow(0, TO_WHATSAPP, 1)], echoes := [ReservedFor(TO_WHATSAPP, 0)])

  const BEGUN_CREATE := Begun(0, Some(0), MessageCreate, CREATED)

  lemma GroupName()
    ensures Decimal(GROUP) == "-5"
  {
    assert Digits(5) == "5";
  }

  // ----- steps of any such run

  lemma AdmitsNext(run: Run, db: Db, tokens: nat, begun: seq<Begun>, e: Event)
    requires IsRun(run)
    requires Reaches(run, db, tokens, begun) && e.Valid() && e.kind.KnownEvent() && |db.inbox| < 50
    requires forall i :: 0 <= i < |db.inbox| ==> db.inbox[i].dedupe != AdmissionKey(e)
    ensures Reaches(run, db.(inbox := db.inbox + [Admitted(e)]), tokens, begun)
  {
    TotalAtMost(InboxCounts(db.inbox));
    TotalAtMost(InboxBytes(OPTIONS, db.inbox));
    NextState(run, db, tokens, begun, AcceptEvent(e, 0), db.(inbox := db.inbox + [Admitted(e)]));
  }

  lemma ClaimsInboxNext(run: Run, db: Db, tokens: nat, begun: seq<Begun>, i: nat)
    requires IsRun(run)
    requires Reaches(run, db, tokens, begun) && i < |db.inbox| && InboxEligible(db, i, NOW)
    requires forall j :: 0 <= j < i ==> !db.inbox[j].state.InboxPending?
    ensures Reaches(run, LeaseInbox(db, i, Lease(tokens, UNTIL)), tokens + 1, begun)
  {
    NextState(run, db, tokens, begun, ClaimInboxStep(NOW, 1000, 0), LeaseInbox(db, i, Lease(tokens, UNTIL)));
  }

  lemma ClaimsDeliveryNext(run: Run, db: Db, tokens: nat, begun: seq<Begun>, i: nat)
    requires IsRun(run)
    requires Reaches(run, db, tokens, begun) && i < |db.outbox| && Eligible(db, i, NOW)
    requires forall j :: 0 <= j < i ==> !db.outbox[j].state.Pending?
    ensures Reaches(run, LeaseDelivery(db, i, Lease(tokens, UNTIL)), tokens + 1, begun)
  {
    NextState(run, db, tokens, begun, ClaimDeliveryStep(NOW, 1000, 0), LeaseDelivery(db, i, Lease(tokens, UNTIL)));
  }

  /** An event is admitted and claimed while nothing else waits. */
  lemma WorksOnNext(run: Run, db: Db, tokens: nat, begun: seq<Begun>, e: Event)
    requires IsRun(run)
    requires Reaches(run, db, tokens, begun) && e.Valid() && e.kind.KnownEvent() && |db.inbox| < 50
    requires forall i :: 0 <= i < |db.inbox| ==> db.inbox[i].dedupe != AdmissionKey(e) && !db.inbox[i].state.InboxPending?
    requires forall i :: 0 <= i < |db.inbox| && db.inbox[i].state.InboxLeased? ==>
               !Aliases(db.parts, TargetKeyOf(e), db.inbox[i].target)
    ensures Reaches(run, db.(inbox := db.inbox + [InWork(e, tokens)]), tokens + 1, begun)
  {
    var b, n := db.(inbox := db.inbox + [Admitted(e)]), |db.inbox|;
    AdmitsNext(run, db, tokens, begun, e);
    assert b.inbox[n] == Admitted(e) && InboxEligible(b, n, NOW);
    ClaimsInboxNext(run, b, tokens, begun, n);
    assert b.inbox[n := InWork(e, tokens)] == db.inbox + [InWork(e, tokens)];
  }

  lemma PlansNext(run: Run, db: Db, tokens: nat, begun: seq<Begun>, e: Event, inbox: nat, token: nat, d: Delivery, b: Db)
    requires IsRun(run)
    requires Reaches(run, db, tokens, begun)
    requires PlanEvent(OPTIONS, db, e, inbox, token, [d], [], NOW, CLOCKS) == Ok(b)
    ensures Reaches(run, b, tokens, begun)
  {
    NextState(run, db, tokens, begun, PlanStep(e, inbox, token, [d], [], NOW, CLOCKS), b);
  }

  lemma CompletesNext(run: Run, db: Db, tokens: nat, begun: seq<Begun>, id: nat, token: nat, c: Completion, b: Db)
    requires IsRun(run)
    requires Reaches(run, db, tokens, begun) && CompleteDelivery(OPTIONS, db, id, token, c, NOW, CLOCKS) == Ok(b)
    ensures Reaches(run, b, tokens, begun)
  {
    NextState(run, db, tokens, begun, CompleteStep(id, token, c, NOW, CLOCKS), b);
  }

  lemma SchedulesNext(run: Run, db: Db, tokens: nat, begun: seq<Begun>, spec: TimerSpec, b: Db)
    requires IsRun(run)
    requires Reaches(run, db, tokens, begun) && ScheduleOutcome(ScheduleTimer(db, spec)) == Ok(b)
    ensures Reaches(run, b, tokens, begun)
  {
    NextState(run, db, tokens, begun, ScheduleStep(spec), b);
  }

  lemma ClaimsTimerNext(run: Run, db: Db, tokens: nat, begun: seq<Begun>, c: TimerClaim)
    requires IsRun(run)
    requires Reaches(run, db, tokens, begun) && ClaimTimer(db, tokens, NOW, 1000, 0) == Ok(c)
    ensures Reaches(run, c.db, tokens + 1, begun)
  {
    NextState(run, db, tokens, begun, ClaimTimerStep(NOW, 1000, 0), c.db);
  }

  // ----- the chat is bound

  const CANDIDATE := Candidate("j", true, "", "sync", false)

  const TOPIC := TopicRef(GROUP, 7, 1)

  const FOUND := EMPTY.(chats := [DISCOVERED])

  lemma FindsChat()
    ensures DiscoverChat(EMPTY, CANDIDATE, GROUP) == Ok(FOUND)
  {
    assert [] + [DISCOVERED] == [DISCOVERED];
  }

  lemma BindsTopic()
    ensures BindTopic(FOUND, "j", TOPIC) == Ok(BOUND)
  {
    assert FOUND.chats[0].jid == "j";
    assert FindChat(FOUND.chats, "j") == Some(0);
    assert [DISCOVERED][0 := CHAT] == [CHAT];
  }

  lemma ChatIsFound(run: Run)
    requires IsRun(run)
    ensures Reaches(run, FOUND, 0, [])
  {
    ReachesStart(run);
    FindsChat();
    NextState(run, EMPTY, 0, [], DiscoverStep(CANDIDATE, GROUP), FOUND);
  }

  lemma BindsNext(run: Run, db: Db, jid: string, topic: TopicRef, b: Db)
    requires IsRun(run)
    requires Reaches(run, db, 0, []) && BindTopic(db, jid, topic) == Ok(b)
    ensures Reaches(run, b, 0, [])
  {
    NextState(run, db, 0, [], BindStep(jid, topic), b);
  }

  lemma ChatIsBound(run: Run)
    requires IsRun(run)
    ensures Reaches(run, BOUND, 0, [])
  {
    ChatIsFound(run);
    BindsTopic();
    BindsNext(run, FOUND, "j", TOPIC, BOUND);
  }

  // ----- the message is created and planned

  const LEASED := BOUND.(inbox := [InWork(CREATE, 0)])

  lemma CreateIsValid()
    ensures CREATE.Valid()
  {
  }

  lemma WorksOnFirst(run: Run, db: Db, e: Event)
    requires IsRun(run)
    requires Reaches(run, db, 0, []) && db.inbox == [] && e.Valid() && e.kind.KnownEvent()
    ensures Reaches(run, db.(inbox := [InWork(e, 0)]), 1, [])
  {
    WorksOnNext(run, db, 0, [], e);
    assert [] + [InWork(e, 0)] == [InWork(e, 0)];
  }

  lemma CreateIsClaimed(run: Run)
    requires IsRun(run)
    ensures Reaches(run, LEASED, 1, [])
  {
    ChatIsBound(run);
    CreateIsValid();
    WorksOnFirst(run, BOUND, CREATE);
  }

  const CREATED_SOURCE := LEASED.(messages := [MESSAGE], parts := [SOURCE_PART])

  const CREATED_WORK := CREATED_SOURCE.(outbox := [Waiting(0, TO_WHATSAPP)])

  lemma CreatesSource()
    ensures ApplyEvent(LEASED, CREATE, [TO_WHATSAPP], NOW) == Ok(Applied(CREATED_SOURCE, Some(0), 0, false))
  {
    GroupName();
    assert [] + [MESSAGE] == [MESSAGE] && [] + [SOURCE_PART] == [SOURCE_PART];
  }

  lemma InsertsCreate()
    ensures InsertDelivery(OPTIONS, CREATED_SOURCE, 0, TO_WHATSAPP, Some(0), NOW) == Ok(CREATED_WORK)
  {
    assert [] + [Waiting(0, TO_WHATSAPP)] == [Waiting(0, TO_WHATSAPP)];
  }

  lemma InsertsOnly(db: Db, inbox: nat, d: Delivery, chat: nat, b: Db)
    requires d.chat == chat && d.message.None? && InsertDelivery(OPTIONS, db, inbox, d, Some(0), NOW) == Ok(b)
    ensures InsertAll(OPTIONS, db, inbox, [d], Some(0), chat, NOW) == Ok(b)
  {
    assert [d][..0] == [];
  }

  lemma PlansOnly(db: Db, e: Event, inbox: nat, token: nat, d: Delivery, a: Applied, b: Db)
    requires inbox < |db.inbox| && db.inbox[inbox] == InWork(e, token) && e.Valid()
    requires e.target.Some? && e.actor == e.target.value.author && d.version == e.version && d.kind == e.kind
    requires ApplyEvent(db, e, [d], NOW) == Ok(a) && !a.suppress && a.message == Some(0) && a.chat == 0
    requires d.chat == 0 && d.message.None? && InsertDelivery(OPTIONS, a.db, inbox, d, Some(0), NOW) == Ok(b)
    requires b.inbox == db.inbox
    ensures PlanEvent(OPTIONS, db, e, inbox, token, [d], [], NOW, CLOCKS) == Ok(b.(inbox := db.inbox[inbox := Planned(e)]))
  {
    InsertsOnly(a.db, inbox, d, 0, b);
    assert [d][1..] == [] && CheckIntents(e, [d]) == Ok(());
    assert Admissible(db, e, inbox, token, [d], NOW, NOW) == Ok(());
    assert PlanWork(OPTIONS, a, inbox, [d], [], NOW) == Ok(b);
    assert ReleaseInbox(b, inbox, InboxDone, 0).inbox == db.inbox[inbox := Planned(e)];
  }

  lemma CreateIsPlanned(run: Run)
    requires IsRun(run)
    ensures Reaches(run, BRIDGED, 1, [])
  {
    CreateIsClaimed(run);
    CreateIsValid();
    CreatesSource();
    InsertsCreate();
    PlansOnly(LEASED, CREATE, 0, 0, TO_WHATSAPP, Applied(CREATED_SOURCE, Some(0), 0, false), CREATED_WORK);
    assert [InWork(CREATE, 0)][0 := Planned(CREATE)] == [Planned(CREATE)];
    PlansNext(run, LEASED, 1, [], CREATE, 0, 0, TO_WHATSAPP, BRIDGED);
  }

  // ----- the send begins

  const CLAIMED := BRIDGED.(outbox := [Held(0, TO_WHATSAPP, 1)])

  lemma BeginsCreate()
    ensures BeginSend(CLAIMED, 0, 1, NOW, CLOCKS) == Ok(SENDING)
  {
    assert [Held(0, TO_WHATSAPP, 1)][0 := InFlightRow(0, TO_WHATSAPP, 1)] == [InFlightRow(0, TO_WHATSAPP, 1)];
    assert [] + [ReservedFor(TO_WHATSAPP, 0)] == [ReservedFor(TO_WHATSAPP, 0)];
  }

  lemma CreateIsSending(run: Run)
    requires IsRun(run)
    ensures Reaches(run, SENDING, 2, [BEGUN_CREATE])
  {
    CreateIsPlanned(run);
    ClaimsDeliveryNext(run, BRIDGED, 1, [], 0);
    assert [Waiting(0, TO_WHATSAPP)][0 := Held(0, TO_WHATSAPP, 1)] == [Held(0, TO_WHATSAPP, 1)];
    BeginsCreate();
    NextBegin(run, CLAIMED, 2, [], BeginStep(0, 1, NOW, CLOCKS), SENDING, BEGUN_CREATE);
    assert [] + [BEGUN_CREATE] == [BEGUN_CREATE];
  }

  // ----- the send completes with two parts that share a remote id

  const COPY := MessageRef(WhatsApp, "j", "me", "w", "")

  const TWIN := MessageRef(WhatsApp, "j", "other", "w", "")

  const COPY_RESULT := DeliveredPart(COPY, 0, Primary, true, {EditText, CanRevoke}, 1, false, false)

  const TWIN_RESULT := DeliveredPart(TWIN, 1, Role.Text, true, {CanRevoke}, 1, false, false)

  const RESULT := Completion([COPY_RESULT, TWIN_RESULT], 0, CREATED, [])

  const COPY_PART := Part(0, RefKey(COPY), 0, Primary, true, {EditText, CanRevoke}, 1, false, false, CREATED, false)

  const TWIN_PART := Part(0, RefKey(TWIN), 1, Role.Text, true, {CanRevoke}, 1, false, false, CREATED, false)

  const PARTS := [SOURCE_PART, COPY_PART, TWIN_PART]

  lemma LinksCopy()
    ensures AcceptablePart(COPY_RESULT, TO_WHATSAPP, CHAT)
    ensures LinkPart([SOURCE_PART], 0, TO_WHATSAPP, COPY_RESULT, CREATED, false) == Ok([SOURCE_PART, COPY_PART])
  {
    assert [SOURCE_PART] + [COPY_PART] == [SOURCE_PART, COPY_PART];
  }

  lemma LinksTwin()
    ensures AcceptablePart(TWIN_RESULT, TO_WHATSAPP, CHAT)
    ensures LinkPart([SOURCE_PART, COPY_PART], 0, TO_WHATSAPP, TWIN_RESULT, CREATED, false) == Ok(PARTS)
  {
    assert [SOURCE_PART, COPY_PART] + [TWIN_PART] == PARTS;
  }

  lemma LinksBoth()
    ensures CompletedParts([SOURCE_PART], 0, TO_WHATSAPP.(message := Some(0)), CHAT, RESULT, false) == Ok(PARTS)
  {
    var d := TO_WHATSAPP.(message := Some(0));
    LinksCopy();
    LinksTwin();
    assert [COPY_RESULT, TWIN_RESULT][..1] == [COPY_RESULT] && [COPY_RESULT][..0] == [];
    assert LinkParts([SOURCE_PART], 0, d, CHAT, [], CREATED, false) == Ok([SOURCE_PART]);
    assert LinkParts([SOURCE_PART], 0, d, CHAT, [COPY_RESULT], CREATED, false) == Ok([SOURCE_PART, COPY_PART]);
  }

  /** The bridged message as it is while its copy is sent, with any events admitted meanwhile. */
  predicate WhileSending(db: Db) {
    db == SENDING.(inbox := db.inbox)
  }

  function Copied(db: Db): Db {
    db.(parts := PARTS, outbox := [SentRow(0, TO_WHATSAPP)])
  }

  lemma CompletesCopy(db: Db)
    requires WhileSending(db)
    ensures CompleteDelivery(OPTIONS, db, 0, 1, RESULT, NOW, CLOCKS) == Ok(Copied(db))
  {
    LinksBoth();
    assert RecordResult(db, 0, RESULT) == Ok(db.(parts := PARTS));
    assert [InFlightRow(0, TO_WHATSAPP, 1)][0 := SentRow(0, TO_WHATSAPP)] == [SentRow(0, TO_WHATSAPP)];
  }

  lemma CopyNext(run: Run, db: Db, tokens: nat)
    requires IsRun(run)
    requires WhileSending(db) && Reaches(run, db, tokens, [BEGUN_CREATE])
    ensures Reaches(run, Copied(db), tokens, [BEGUN_CREATE])
  {
    CompletesCopy(db);
    CompletesNext(run, db, tokens, [BEGUN_CREATE], 0, 1, RESULT, Copied(db));
  }

  // ----- more events

  const EDITED := Version("telegram.message", 20)

  const EDIT := Event("2", Telegram, MessageEdit, "-5", Some(SOURCE), "u", 0, EDITED, None, "", "", 7)

  const REACTION := Event("3", WhatsApp, ReactionSet, "j", Some(COPY), "v", 0, Version("wa.reaction", 1), None, "", "", 0)

  lemma EventsAreValid()
    ensures EDIT.Valid() && REACTION.Valid()
  {
  }

  // ----- two leased events become aliases

  const EDITING := SENDING.(inbox := [Planned(CREATE), InWork(EDIT, 2)])

  const BOTH := SENDING.(inbox := [Planned(CREATE), InWork(EDIT, 2), InWork(REACTION, 3)])

  lemma EditIsInWork(run: Run)
    requires IsRun(run)
    ensures Reaches(run, EDITING, 3, [BEGUN_CREATE])
  {
    CreateIsSending(run);
    EventsAreValid();
    assert EDIT.key != CREATE.key;
    WorksOnNext(run, SENDING, 2, [BEGUN_CREATE], EDIT);
    assert [Planned(CREATE)] + [InWork(EDIT, 2)] == EDITING.inbox;
  }

  lemma BothAreInWork(run: Run)
    requires IsRun(run)
    ensures Reaches(run, BOTH, 4, [BEGUN_CREATE])
  {
    EditIsInWork(run);
    EventsAreValid();
    WorksOnNext(run, EDITING, 3, [BEGUN_CREATE], REACTION);
    assert EDITING.inbox + [InWork(REACTION, 3)] == BOTH.inbox;
  }

  lemma CopiesAlias()
    ensures AliasFree(BOTH) && !AliasFree(Copied(BOTH))
  {
    var b := Copied(BOTH);
    assert b.inbox[1].target == RefTarget(b.parts[0].key) && b.inbox[2].target == RefTarget(b.parts[1].key);
    assert Aliases(b.parts, b.inbox[1].target, b.inbox[2].target);
  }

  /**
   * A Telegram edit of the message and a WhatsApp reaction to its copy are in work together, no aliases as long as the
   * copy is unknown; the completion that reports the copy makes them aliases.
   */
  lemma CompletionMakesAliases()
    ensures Reachable(BOTH, [BEGUN_CREATE]) && AliasFree(BOTH)
    ensures Reachable(Copied(BOTH), [BEGUN_CREATE]) && !AliasFree(Copied(BOTH))
  {
    StoreRuns();
    BothAreInWork(StoreRun());
    CopyNext(StoreRun(), BOTH, 4);
    ReachesIsReachable(BOTH, 4, [BEGUN_CREATE]);
    ReachesIsReachable(Copied(BOTH), 4, [BEGUN_CREATE]);
    CopiesAlias();
  }

  // ----- an expiry that is always refused

  const EXPIRY := Timer(0, Expire, CREATED, 50, TimerPending, None)

  const SCHEDULED := Copied(SENDING).(timers := [EXPIRY])

  const EXPIRING := SCHEDULED.(timers := [EXPIRY.(state := TimerLeased, lease := Some(Lease(2, UNTIL)))])

  const EXPIRE := TimerSpec(Some(0), Expire, CREATED, 50)

  lemma SchedulesExpiry()
    ensures ScheduleOutcome(ScheduleTimer(Copied(SENDING), EXPIRE)) == Ok(SCHEDULED)
  {
    assert [] + [EXPIRY] == [EXPIRY];
  }

  lemma CopyIsSent(run: Run)
    requires IsRun(run)
    ensures Reaches(run, Copied(SENDING), 2, [BEGUN_CREATE])
  {
    CreateIsSending(run);
    CopyNext(run, SENDING, 2);
  }

  lemma ExpiryIsScheduled(run: Run)
    requires IsRun(run)
    ensures Reaches(run, SCHEDULED, 2, [BEGUN_CREATE])
  {
    CopyIsSent(run);
    SchedulesExpiry();
    SchedulesNext(run, Copied(SENDING), 2, [BEGUN_CREATE], EXPIRE, SCHEDULED);
  }

  lemma ClaimsExpiry()
    ensures ClaimTimer(SCHEDULED, 2, NOW, 1000, 0) == Ok(TimerClaim(EXPIRING, Some(0)))
  {
    assert CancelObsolete(SCHEDULED).timers == [EXPIRY];
    assert CancelObsolete(SCHEDULED) == SCHEDULED;
    assert TimerDue(SCHEDULED, 0, NOW);
    assert NextTimer(SCHEDULED, NOW, 1) == Some(0);
    assert [EXPIRY][0 := EXPIRING.timers[0]] == EXPIRING.timers;
  }

  lemma ExpiryIsLeased(run: Run)
    requires IsRun(run)
    ensures Reaches(run, EXPIRING, 3, [BEGUN_CREATE])
  {
    ExpiryIsScheduled(run);
    ClaimsExpiry();
    ClaimsTimerNext(run, SCHEDULED, 2, [BEGUN_CREATE], TimerClaim(EXPIRING, Some(0)));
  }

  lemma {:induction false} AllPartsOf(parts: seq<Part>, m: nat)
    requires forall p :: 0 <= p < |parts| ==> parts[p].message == m
    ensures PartsOf(parts, m) == parts
  {
    if parts != [] {
      AllPartsOf(parts[..|parts| - 1], m);
    }
  }

  lemma ReachableIsReady(db: Db, begun: seq<Begun>)
    requires Reachable(db, begun)
    ensures ExpiryReady(db)
  {
    var steps: seq<Step> :| Execute(OPTIONS, START, steps).db == db && Execute(OPTIONS, START, steps).begun == begun;
    ReachableIsExpiryReady(OPTIONS, steps);
  }

  /**
   * The message stands at the scheduled version with two removable copies of one remote id, its chat is active, and its
   * expiry is claimed; yet the completion of the list the coordinator builds is refused, whatever ids the port allocates.
   */
  lemma TwinBlocksExpiry(sendId: nat -> string, now: int, clocks: Clocks)
    ensures Reachable(EXPIRING, [BEGUN_CREATE])
    ensures StillClaimed(EXPIRING, ClaimedOf(SCHEDULED, 0, 2)) && Schedulable(EXPIRING.messages[0], Expire, CREATED)
    ensures EXPIRING.chats[0].state.Active? && EXPIRING.chats[0].generation == COPY_PART.generation == TWIN_PART.generation
    ensures CompleteTimer(OPTIONS, EXPIRING, 0, 2, ListFor(ClaimedOf(SCHEDULED, 0, 2), sendId), now, clocks).Err?
  {
    StoreRuns();
    ExpiryIsLeased(StoreRun());
    ReachesIsReachable(EXPIRING, 3, [BEGUN_CREATE]);
    ReachableIsReady(EXPIRING, [BEGUN_CREATE]);
    AllPartsOf(PARTS, 0);
    SharedIdBlocksExpiry(OPTIONS, EXPIRING, ClaimedOf(SCHEDULED, 0, 2), 1, 2, 2, sendId, now, clocks);
  }

  // ----- begun edits that go back

  const COPIED := Copied(SENDING)

  const EDIT_WORK := COPIED.(inbox := [Planned(CREATE), InWork(EDIT, 2)])

  const TO_COPY := Delivery("op:1", WhatsApp, MessageEdit, 0, 1, None, None, Some(COPY), EDITED, None, "s1", "j", "")

  const EDITED_SOURCE := EDIT_WORK.(messages := [MESSAGE.(version := EDITED)],
                                    parts := [SOURCE_PART.(version := EDITED), COPY_PART, TWIN_PART])

  const EDIT_INSERTED := EDITED_SOURCE.(outbox := [SentRow(0, TO_WHATSAPP), Waiting(1, TO_COPY)])

  const EDIT_PLANNED := EDIT_INSERTED.(inbox := [Planned(CREATE), Planned(EDIT)])

  lemma AppliesEdit()
    ensures ApplyEvent(EDIT_WORK, EDIT, [TO_COPY], NOW) == Ok(Applied(EDITED_SOURCE, Some(0), 0, false))
  {
    var outbox := [SentRow(0, TO_WHATSAPP)];
    assert Supersede(outbox, 0, true) == outbox;
    assert FindPart(PARTS, RefKey(SOURCE)) == Some(0) by { assert PARTS[0].key == RefKey(SOURCE); }
    assert [MESSAGE][0 := MESSAGE.(version := EDITED)] == [MESSAGE.(version := EDITED)];
    assert PARTS[0 := SOURCE_PART.(version := EDITED)] == [SOURCE_PART.(version := EDITED), COPY_PART, TWIN_PART];
  }

  lemma InsertsNext(db: Db, inbox: nat, d: Delivery)
    requires IntentFields(d, Some(0)) && TargetGeneration(db.parts, d, Some(0)) && d.chat == 0 && d.dependsOn.None?
    requires db.chats == [CHAT] && d.generation == 1 && !d.kind.TopicCreate? && |db.outbox| < 50
    requires forall i :: 0 <= i < |db.outbox| ==> db.outbox[i].operationKey != d.operationKey
    requires !SendIdTaken(db.outbox, d)
    ensures InsertDelivery(OPTIONS, db, inbox, d, Some(0), NOW) == Ok(db.(outbox := db.outbox + [Waiting(inbox, d)]))
  {
    TotalAtMost(OutboxCounts(db.outbox));
    TotalAtMost(OutboxBytes(OPTIONS, db.outbox));
  }

  lemma ToCopyFits()
    ensures IntentFields(TO_COPY, Some(0)) && TargetGeneration(EDITED_SOURCE.parts, TO_COPY, Some(0))
    ensures !SendIdTaken(EDITED_SOURCE.outbox, TO_COPY) && EDITED_SOURCE.outbox[0].operationKey != TO_COPY.operationKey
  {
  }

  lemma InsertsEdit()
    ensures InsertDelivery(OPTIONS, EDITED_SOURCE, 1, TO_COPY, Some(0), NOW) == Ok(EDIT_INSERTED)
  {
    ToCopyFits();
    InsertsNext(EDITED_SOURCE, 1, TO_COPY);
    assert [SentRow(0, TO_WHATSAPP)] + [Waiting(1, TO_COPY)] == EDIT_INSERTED.outbox;
  }

  lemma EditIsWorkedOn(run: Run)
    requires IsRun(run)
    ensures Reaches(run, EDIT_WORK, 3, [BEGUN_CREATE])
  {
    CopyIsSent(run);
    EventsAreValid();
    assert EDIT.key != CREATE.key;
    WorksOnNext(run, COPIED, 2, [BEGUN_CREATE], EDIT);
    assert [Planned(CREATE)] + [InWork(EDIT, 2)] == EDIT_WORK.inbox;
  }

  lemma PlansEdit()
    ensures PlanEvent(OPTIONS, EDIT_WORK, EDIT, 1, 2, [TO_COPY], [], NOW, CLOCKS) == Ok(EDIT_PLANNED)
  {
    EventsAreValid();
    AppliesEdit();
    InsertsEdit();
    PlansOnly(EDIT_WORK, EDIT, 1, 2, TO_COPY, Applied(EDITED_SOURCE, Some(0), 0, false), EDIT_INSERTED);
    assert EDIT_WORK.inbox[1 := Planned(EDIT)] == EDIT_PLANNED.inbox;
  }

  lemma EditIsPlanned(run: Run)
    requires IsRun(run)
    ensures Reaches(run, EDIT_PLANNED, 3, [BEGUN_CREATE])
  {
    EditIsWorkedOn(run);
    PlansEdit();
    PlansNext(run, EDIT_WORK, 3, [BEGUN_CREATE], EDIT, 1, 2, TO_COPY, EDIT_PLANNED);
  }

  const EDIT_HELD := EDIT_PLANNED.(outbox := [SentRow(0, TO_WHATSAPP), Held(1, TO_COPY, 3)])

  const EDIT_SENDING := EDIT_PLANNED.(outbox := [SentRow(0, TO_WHATSAPP), InFlightRow(1, TO_COPY, 3)],
                                      echoes := [ReservedFor(TO_WHATSAPP, 0), ReservedFor(TO_COPY, 1)])

  const BEGUN_EDIT := Begun(1, Some(0), MessageEdit, EDITED)

  lemma EditIsEligible()
    ensures Eligible(EDIT_PLANNED, 1, NOW) && LeaseDelivery(EDIT_PLANNED, 1, Lease(3, UNTIL)) == EDIT_HELD
  {
    assert EDIT_PLANNED.outbox[1 := Held(1, TO_COPY, 3)] == EDIT_HELD.outbox;
  }

  lemma EditTarget()
    ensures StoredIntent(EDIT_HELD, 1) == Ok(()) && TargetReady(EDIT_HELD, EDIT_HELD.outbox[1].payload)
  {
    assert EDIT_HELD.parts[1].key == RefKey(COPY);
    assert FindTarget(EDIT_HELD, EDIT_HELD.outbox[1].payload) == Some(1);
  }

  lemma BeginsEdit()
    ensures BeginSend(EDIT_HELD, 1, 3, NOW, CLOCKS) == Ok(EDIT_SENDING)
  {
    EditTarget();
    assert FindEcho(EDIT_HELD.echoes, ReservedEcho(EDIT_HELD, 1).key).None?;
    assert EDIT_HELD.outbox[1 := InFlightRow(1, TO_COPY, 3)] == EDIT_SENDING.outbox;
    assert [ReservedFor(TO_WHATSAPP, 0)] + [ReservedFor(TO_COPY, 1)] == EDIT_SENDING.echoes;
  }

  lemma EditIsSending(run: Run)
    requires IsRun(run)
    ensures Reaches(run, EDIT_SENDING, 4, [BEGUN_CREATE, BEGUN_EDIT])
  {
    EditIsPlanned(run);
    EditIsEligible();
    ClaimsDeliveryNext(run, EDIT_PLANNED, 3, [BEGUN_CREATE], 1);
    BeginsEdit();
    NextBegin(run, EDIT_HELD, 4, [BEGUN_CREATE], BeginStep(1, 3, NOW, CLOCKS), EDIT_SENDING, BEGUN_EDIT);
    assert [BEGUN_CREATE] + [BEGUN_EDIT] == [BEGUN_CREATE, BEGUN_EDIT];
  }

  const EDIT_RESULT := Completion([], 0, EDITED, [])

  const EDIT_SENT := EDIT_SENDING.(parts := [SOURCE_PART.(version := EDITED), COPY_PART.(version := EDITED), TWIN_PART],
                                   outbox := [SentRow(0, TO_WHATSAPP), SentRow(1, TO_COPY)])

  lemma AcknowledgesEdit()
    ensures CompletedParts(EDIT_SENDING.parts, 0, TO_COPY.(message := Some(0)), CHAT, EDIT_RESULT, false) == Ok(EDIT_SENT.parts)
  {
    var parts := EDIT_SENDING.parts;
    assert parts[1].message == 0 && parts[1].key == RefKey(COPY);
    assert FirstIndex(parts, (p: Part) => p.message == 0 && p.key == RefKey(COPY)) == Some(1);
    assert parts[1 := COPY_PART.(version := EDITED)] == EDIT_SENT.parts;
  }

  lemma CompletesEdit()
    ensures CompleteDelivery(OPTIONS, EDIT_SENDING, 1, 3, EDIT_RESULT, NOW, CLOCKS) == Ok(EDIT_SENT)
  {
    AcknowledgesEdit();
    assert RecordResult(EDIT_SENDING, 1, EDIT_RESULT) == Ok(EDIT_SENDING.(parts := EDIT_SENT.parts));
    assert EDIT_SENDING.outbox[1 := SentRow(1, TO_COPY)] == EDIT_SENT.outbox;
  }

  lemma EditIsSent(run: Run)
    requires IsRun(run)
    ensures Reaches(run, EDIT_SENT, 4, [BEGUN_CREATE, BEGUN_EDIT])
  {
    EditIsSending(run);
    CompletesEdit();
    CompletesNext(run, EDIT_SENDING, 4, [BEGUN_CREATE, BEGUN_EDIT], 1, 3, EDIT_RESULT, EDIT_SENT);
  }

  const UNDATED := Version("wa.edit", 0)

  /** A WhatsApp edit of the copy whose envelope carries no timestamp. */
  const UNDATED_EDIT := Event("4", WhatsApp, MessageEdit, "j", Some(COPY), "me", 0, UNDATED, None, "", "", 0)

  const BACK := Delivery("op:2", Telegram, MessageEdit, 0, 1, None, None, Some(SOURCE), UNDATED, None, "", "", "")

  const UNDATED_WORK := EDIT_SENT.(inbox := [Planned(CREATE), Planned(EDIT), InWork(UNDATED_EDIT, 4)])

  const UNDATED_SOURCE := UNDATED_WORK.(messages := [MESSAGE.(version := UNDATED)],
                                        parts := [SOURCE_PART.(version := EDITED), COPY_PART.(version := UNDATED), TWIN_PART])

  const UNDATED_INSERTED := UNDATED_SOURCE.(outbox := [SentRow(0, TO_WHATSAPP), SentRow(1, TO_COPY), Waiting(2, BACK)])

  const UNDATED_PLANNED := UNDATED_INSERTED.(inbox := [Planned(CREATE), Planned(EDIT), Planned(UNDATED_EDIT)])

  lemma UndatedIsValid()
    ensures UNDATED_EDIT.Valid()
  {
  }

  lemma UndatedIsWorkedOn(run: Run)
    requires IsRun(run)
    ensures Reaches(run, UNDATED_WORK, 5, [BEGUN_CREATE, BEGUN_EDIT])
  {
    EditIsSent(run);
    UndatedIsValid();
    WorksOnNext(run, EDIT_SENT, 4, [BEGUN_CREATE, BEGUN_EDIT], UNDATED_EDIT);
    assert EDIT_SENT.inbox + [InWork(UNDATED_EDIT, 4)] == UNDATED_WORK.inbox;
  }

  lemma AppliesUndated()
    ensures ApplyEvent(UNDATED_WORK, UNDATED_EDIT, [BACK], NOW) == Ok(Applied(UNDATED_SOURCE, Some(0), 0, false))
  {
    var outbox, parts := UNDATED_WORK.outbox, UNDATED_WORK.parts;
    assert Supersede(outbox, 0, true) == outbox;
    assert parts[1].key == RefKey(COPY);
    assert FindPart(parts, RefKey(COPY)) == Some(1);
    assert UNDATED_WORK.messages[0 := MESSAGE.(version := UNDATED)] == UNDATED_SOURCE.messages;
    assert parts[1 := COPY_PART.(version := UNDATED)] == UNDATED_SOURCE.parts;
  }

  lemma BackFits()
    ensures IntentFields(BACK, Some(0)) && TargetGeneration(UNDATED_SOURCE.parts, BACK, Some(0))
    ensures !SendIdTaken(UNDATED_SOURCE.outbox, BACK)
    ensures forall i :: 0 <= i < 2 ==> UNDATED_SOURCE.outbox[i].operationKey != BACK.operationKey
  {
  }

  lemma InsertsBack()
    ensures InsertDelivery(OPTIONS, UNDATED_SOURCE, 2, BACK, Some(0), NOW) == Ok(UNDATED_INSERTED)
  {
    BackFits();
    InsertsNext(UNDATED_SOURCE, 2, BACK);
    assert UNDATED_SOURCE.outbox + [Waiting(2, BACK)] == UNDATED_INSERTED.outbox;
  }

  lemma PlansUndated()
    ensures PlanEvent(OPTIONS, UNDATED_WORK, UNDATED_EDIT, 2, 4, [BACK], [], NOW, CLOCKS) == Ok(UNDATED_PLANNED)
  {
    UndatedIsValid();
    AppliesUndated();
    InsertsBack();
    PlansOnly(UNDATED_WORK, UNDATED_EDIT, 2, 4, BACK, Applied(UNDATED_SOURCE, Some(0), 0, false), UNDATED_INSERTED);
    assert UNDATED_WORK.inbox[2 := Planned(UNDATED_EDIT)] == UNDATED_PLANNED.inbox;
  }

  lemma UndatedIsPlanned(run: Run)
    requires IsRun(run)
    ensures Reaches(run, UNDATED_PLANNED, 5, [BEGUN_CREATE, BEGUN_EDIT])
  {
    UndatedIsWorkedOn(run);
    PlansUndated();
    PlansNext(run, UNDATED_WORK, 5, [BEGUN_CREATE, BEGUN_EDIT], UNDATED_EDIT, 2, 4, BACK, UNDATED_PLANNED);
  }

  const BACK_HELD := UNDATED_PLANNED.(outbox := [SentRow(0, TO_WHATSAPP), SentRow(1, TO_COPY), Held(2, BACK, 5)])

  const BACK_SENDING := UNDATED_PLANNED.(outbox := [SentRow(0, TO_WHATSAPP), SentRow(1, TO_COPY), InFlightRow(2, BACK, 5)])

  const BEGUN_BACK := Begun(2, Some(0), MessageEdit, UNDATED)

  lemma BackIsEligible()
    ensures Eligible(UNDATED_PLANNED, 2, NOW) && LeaseDelivery(UNDATED_PLANNED, 2, Lease(5, UNTIL)) == BACK_HELD
  {
    assert UNDATED_PLANNED.outbox[2 := Held(2, BACK, 5)] == BACK_HELD.outbox;
  }

  lemma BackTarget()
    ensures StoredIntent(BACK_HELD, 2) == Ok(()) && TargetReady(BACK_HELD, BACK_HELD.outbox[2].payload)
  {
    assert BACK_HELD.parts[0].key == RefKey(SOURCE);
    assert FindTarget(BACK_HELD, BACK_HELD.outbox[2].payload) == Some(0);
  }

  lemma BeginsBack()
    ensures BeginSend(BACK_HELD, 2, 5, NOW, CLOCKS) == Ok(BACK_SENDING)
  {
    BackTarget();
    assert BACK_HELD.outbox[2 := InFlightRow(2, BACK, 5)] == BACK_SENDING.outbox;
  }

  lemma BackIsSending(run: Run)
    requires IsRun(run)
    ensures Reaches(run, BACK_SENDING, 6, [BEGUN_CREATE, BEGUN_EDIT, BEGUN_BACK])
  {
    UndatedIsPlanned(run);
    BackIsEligible();
    ClaimsDeliveryNext(run, UNDATED_PLANNED, 5, [BEGUN_CREATE, BEGUN_EDIT], 2);
    BeginsBack();
    NextBegin(run, BACK_HELD, 6, [BEGUN_CREATE, BEGUN_EDIT], BeginStep(2, 5, NOW, CLOCKS), BACK_SENDING, BEGUN_BACK);
    assert [BEGUN_CREATE, BEGUN_EDIT] + [BEGUN_BACK] == [BEGUN_CREATE, BEGUN_EDIT, BEGUN_BACK];
  }

  /**
   * A Telegram message is edited at order 20 and the edit sent to WhatsApp; then an edit of the copy that carries no
   * timestamp takes the message back to order 0, and its edit of the original is begun after the other.
   */
  lemma BegunEditsGoBack()
    ensures Reachable(BACK_SENDING, [BEGUN_CREATE, BEGUN_EDIT, BEGUN_BACK])
    ensures !EditsOrdered([BEGUN_CREATE, BEGUN_EDIT, BEGUN_BACK])
    ensures Reachable(EDIT_SENT, [BEGUN_CREATE, BEGUN_EDIT]) && EDIT_SENT.messages[0].version.order == 20
    ensures BACK_SENDING.messages[0].version.order == 0 && !BACK_SENDING.messages[0].tombstone
  {
    StoreRuns();
    BackIsSending(StoreRun());
    EditIsSent(StoreRun());
    ReachesIsReachable(BACK_SENDING, 6, [BEGUN_CREATE, BEGUN_EDIT, BEGUN_BACK]);
    ReachesIsReachable(EDIT_SENT, 4, [BEGUN_CREATE, BEGUN_EDIT]);
    var begun := [BEGUN_CREATE, BEGUN_EDIT, BEGUN_BACK];
    assert SameEdited(begun[1], begun[2]);
  }
}
