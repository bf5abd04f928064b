# Whatsgram: the durable bridge store, verified

Whatsgram bridges WhatsApp chats and Telegram forum topics. Everything it must not get wrong passes through one SQLite
database: events are admitted into an inbox, planned into an outbox, sent in two phases by competing workers, and
mapped to messages and parts that later edits, reactions, revocations and expiry timers refer to. This project models
that database with every transaction that changes it, the delivery and timer steps of the coordinator, the Telegram
polling loop, and the text code that splits messages and moves entities. `dafny verify dfyconfig.toml` checks it.

## How the model is built

- **Tables and transactions.** `Database.dfy` has the tables as sequences of rows; rows are never deleted, so a row id is
  a position. A part and its source state are inserted together and share a row. `Admission`, `InboxWork`, `Planning`,
  `Deliveries`, `Timers` and `Chats` define each transaction as a function from a database to the committed database or
  the error, branch for branch. NULL ids and the id 0 are `None`.
- **The store object.** `Store.dfy` has the class `Store` with the same transactions as methods that scan and update in
  loops, each proved equal to its function: on success the committed database, on an error nothing changes.
- **Time and tokens.** A transaction takes the readings of the local clock as arguments, and `fenceTime` is the later of
  the argument and the reading. Fencing tokens come from a counter, the one property of the random tokens that is used
  being that they are fresh.
- **Rules.** `SendRules`, `PlanRules`, `CompletionRules`, `InboxRules` and `ChatRules`, and parts of `TimerSafety`,
  `Coordinator` and `Polling`, state every transaction once more in the columns of the tables, apart from the predicates
  it is written with: when it commits, mostly as an if-and-only-if, and what each row then is.
- **Runs.** `Steps.dfy` has one step per store call with arbitrary arguments, including stale tokens and impossible
  times. `Runs.dfy` executes any sequence of them from the empty database, which covers any number of workers, crashes
  between calls, expired leases and restarts. `Sound` is the invariant of all reachable states; `Evolves` says what no
  run ever takes back. `Guarantees.dfy` draws the promises of the bridge from the two.
- **Workers and polling.** `Workers.dfy` adds delivery workers that hold rows between store calls and record what they
  hand to a platform; `Coordinator.dfy` has `StepDelivery` as a method and proves that it is such a worker.
  `Polling.dfy` has the poll loop as a method. `PollSafety.dfy` runs a poller against a server that issues updates, with
  crashes at any point, and proves that the loop answered by that server is such a poller.
- **Beyond the invariant.** `Arrival.dfy` decides what a message says after any run, `Aliasing.dfy` when two events in
  work may name one message, and `ExpiryCondition.dfy` when the expiry the coordinator builds is accepted.
  `Scenarios.dfy` has concrete runs from the empty store for what is not promised.

## What the code does not promise

- An order-0 revision of another version kind is accepted whatever the message's order is (`internal/store/work.go:298`
  and `:315`), and a WhatsApp edit without timestamp has order 0 (`internal/whatsapp/normalize.go:290`).
  `AcceptedOrderDrops` says exactly when an accepted revision lowers the order. `BegunEditsGoBack` is a run in which an
  edit of order 20 is sent and then one of order 0. The rules about the order of edits therefore assume creates and edits
  with positive orders; those about arrival also assume that the completion of a reaction reports no parts, as every
  send in `internal/coordinator/delivery.go` does.
- `TombstoneMessage` keeps the stored text (`internal/store/mappings.go:144-165`), while a revoke and an expiry empty it.
  `DeletedStaysDeleted` therefore says that the text stays as it was or is emptied, and never that it is gone.
- Alias exclusion between leased events holds when an event is claimed and survives every step but one: a completion
  breaks it exactly when two leased events name its message, as parts it has or parts just reported
  (`StepKeepsAliasFree`). `CompletionMakesAliases` is such a run. What holds in every state is that target keys differ.
- An expiry can be refused although nothing changed since its claim. `StepCompletesExactlyWhen` has the condition. The
  revokes carry their parts' own generations, so after a topic rebind, or while the chat is not active, a message with an
  old removable part never expires (`OldPartBlocksExpiry`). Operation keys name a part by platform and remote id only, so
  two removable parts that differ in author block the expiry as well (`SharedIdBlocksExpiry`, and `TwinBlocksExpiry` for
  a run that gets there).
- Rows of a replaced topic and uncertain rows wait for an operator, so progress is stated for a quiescent store.

## Model

| member | source | states |
|---|---|---|
| Workers.TransmittedAtMostOnce | internal/coordinator/delivery.go:45-112 | with any number of workers, crashes and expired leases, no outbox row is handed to a platform twice, and each one handed over was begun first |
| Guarantees.BegunAtMostOnce | internal/store/deliveries.go:105-188 | in every run each row passes BeginSend at most once and afterwards is never pending, leased or superseded |
| Guarantees.BegunNeverBeginsAgain | internal/store/deliveries.go:117 | once begun, a row is refused by every later BeginSend, whatever happens in between |
| Coordinator.StepDelivery | internal/coordinator/delivery.go:45-112 | one pass of a delivery worker, the platform calls for the row being one outcome: the database, the row handed to a port and the report; during a WhatsApp outage the claimed row is pending again, unsent, after the configured wait, a refused begin leaves it dead, and a failed send in doubt, blocked or dead by its error |
| Coordinator.AttemptLeaves | internal/coordinator/delivery.go:45-112 | the same for every combination of claim, connection, begin, outcome and lost lease, each state, cause and time written out |
| Coordinator.UnsentFailure | internal/coordinator/delivery.go:618-646 | before the start a passing error is recorded as pending at now plus the delay, missing permission as blocked, any other error as dead |
| Coordinator.SentFailure | internal/coordinator/delivery.go:648-669 | after the start a transient, rate-limited, uncertain or may-have-applied error is recorded as uncertain, missing permission as blocked, any other error as dead |
| Coordinator.RetryDelay | internal/coordinator/delivery.go:620-629 | what the platform asks for, or else the configured base, or else one second, capped by the maximum |
| Coordinator.CompletionReports | internal/coordinator/delivery.go:93-104 | the reported parts, or one part of the bridge's own for a create that reports none, under the version of the intent and its own send id |
| Coordinator.StepIsMoves | internal/coordinator/delivery.go:45-112 | every pass of StepDelivery is a run of one worker's moves, so it inherits the at-most-once result |
| Coordinator.DecisionIsRecorded | internal/coordinator/delivery.go:609-670 | state, cause and time of the decision for each error before and after the start; the store records it if and only if the lease is still held and the error class is known |
| Guarantees.BeginRespectsOrder | internal/store/intent_integrity.go:36-56 | when a send begins, every earlier row of its message, and of its chat if one of the two has no message, is succeeded, dead or superseded, no such row is leased, sending or uncertain, its dependency succeeded, its topic is current, and edits and revokes are the effective version |
| Guarantees.InFlightApart | internal/store/deliveries.go:60 | in every reachable state two rows of one message are never both leased, sending or uncertain, nor are two rows of one chat of which one has no message |
| Guarantees.EditsNeverGoBack | internal/store/work.go:285-335 | along any run with positive orders, the orders of the edits begun for one message never decrease |
| Guarantees.StepRaisesVersions | internal/store/work.go:285-335 | with positive orders, every step leaves a message's version alone, raises its order strictly, or deletes the message |
| Steps.StepKeepsSchedule | internal/store/deliveries.go:60-73 | every step keeps: for a row in flight or ever started, all earlier rows of its message, and of its chat if one of the two has no message, are finished and its dependency succeeded |
| Guarantees.QuiescentClaimReturnsOldest | internal/store/deliveries.go:46-81 | if nothing is in flight or blocked and every pending row is due and current, a claim returns the smallest pending id |
| SendRules.ClaimTakesLeast | internal/store/deliveries.go:46-92 | a claim leases exactly the least row that is pending, due, of the chat's generation and state, with its dependency succeeded and no related row open before it or in flight, and changes nothing else; without such a row there is no work |
| Guarantees.DeletedStaysDeleted | internal/store/work.go:276-278 | a deleted message stays deleted in every continuation, with all parts and source states deleted, no new text, and no create, edit or reaction that can begin |
| Deletion.StepKeepsBuried | internal/store/work.go:319-346 | every step keeps: a deleted message has only deleted parts and source states and no unsent create, edit or reaction |
| Arrival.ArrivalOrderIndependent | internal/store/work.go:197-348 | two orderly runs that plan the same revisions of a message, of distinct orders, in any order and among any other work, leave it with the same version and text |
| Arrival.GreatestRevisionDecides | internal/store/work.go:285-335 | in any orderly run a message that stands at the end says what its revision of greatest order says, or what it said before if none is greater |
| Arrival.ContentIsLatest | internal/store/work.go:285-335 | version and text of a standing message are those of its planned revisions applied one by one, each counting exactly when its order is greater |
| Arrival.ReachableIsBehind | internal/store/source_ack.go:11-34 | along orderly runs no part and no row but a reaction is ahead of its standing message |
| Revisions.StaleEventChangesNothing | internal/store/work.go:172-196 | a stale revision finishes its inbox row and changes nothing else |
| PlanRules.RevisionIsDecided | internal/store/work.go:285-335 | a create or edit of a standing message fails, is suppressed or revises message and part, by kind, epoch, order, tie and digest against both versions; an edit supersedes exactly the unsent edits |
| PlanRules.SameOrderConflicts | internal/domain/contracts.go:72-80 | an event whose version has the order of its part's or message's but another tie or digest fails with a conflict and is not dropped as stale |
| PlanRules.PlansExactlyWhen | internal/store/work.go:124-196 | a plan commits if and only if the leased event is planned by its holder with intents about exactly it and its work can be done; then the event is done |
| PlanRules.DeletedOrReacted | internal/store/work.go:276-284 | only a revoke reaches a deleted message, a reaction changes no message or part, and other kinds are refused |
| PlanRules.FirstEventIsTakenWhen | internal/store/work.go:197-275 | an event of an unknown target is taken if and only if it is a create or revoke of a message never seen from a chat that is determined; then exactly this message and part are added |
| PlanRules.ChatEventIsTakenWhen | internal/store/chat_routing.go:10-51 | a chat event is taken if and only if all its intents do what it asks for in the chat it names |
| PlanRules.InsertsExactlyWhen | internal/store/work.go:349-419 | an intent becomes a row if and only if it is complete, of the chat's present topic, with a fitting target and dependency, and known unchanged or new with room and an unused send id |
| PlanRules.InsertedIsPending | internal/store/work.go:410-419 | the columns of the new row; a known operation adds none |
| PlanRules.OnlyAskedRows | internal/store/work.go:172-181 | every row a plan adds holds one of its intents and waits |
| PlanRules.IntentsOfOne | internal/store/work.go:173-175 | all intents of a plan are of the event's chat and message |
| PlanRules.TimersOfOne | internal/store/work.go:182-185 | all timers of a plan are of the event's message |
| Revisions.AcceptedOrderDrops | internal/store/work.go:285-318 | an accepted revision lowers the message's order if and only if it has order 0 and another kind than a message of positive order |
| Scenarios.BegunEditsGoBack | internal/whatsapp/normalize.go:284-292 | a run from the empty store that sends an edit of order 20 and then begins one of order 0 for the same message |
| Effects.RevokeDeletes | internal/store/work.go:319-346 | planning a revoke of a known part deletes exactly its message, with every part and source state, and empties its text |
| PlanRules.RevokeSupersedes | internal/store/work.go:336-339 | a revoke supersedes exactly the unsent creates, edits and reactions of its message |
| Effects.CreateBindsChat | internal/store/work.go:209-272 | the first event of a message creates it in a chat with the event's native id, deleted exactly for a revoke, with the target as its primary part |
| Effects.EditSupersedes | internal/store/work.go:331-335 | an accepted edit supersedes exactly the unsent older edits of its message |
| Effects.PlanStoresWork | internal/store/work.go:124-196 | a plan that is not suppressed leaves a row for each delivery and a timer for each requested timer |
| Effects.CompletionRecords | internal/store/completion.go:13-139 | a completion records every delivered part under its message, with deletion carried over from a tombstone, touches no other message or row, and for a revoke deletes the message's whole platform side |
| Effects.AcknowledgedIsGreater | internal/store/source_ack.go:11-34 | an acknowledgment sets one part's source version to the greater order of the two and only ever adds a deletion mark |
| CompletionRules.CompletesExactlyWhen | internal/store/completion.go:13-139 | a completion commits if and only if the row is held and sending in the chat's generation and version, its parts can be recorded and its echoes reserved |
| CompletionRules.AcknowledgesExactlyWhen | internal/store/source_ack.go:11-34 | a part is acknowledged if and only if it is the message's and the versions are comparable; it keeps the greater one |
| CompletionRules.NewPartJoins | internal/store/completion.go:78-91 | a new part joins the message in the intent's generation exactly if its index is free and no other standing part of the platform is primary |
| CompletionRules.KnownPartIsConfirmed | internal/store/completion.go:68-77 | a part reported again must be the same part of the message at a comparable version, and only becomes newer, deleted or retired |
| CompletionRules.RecordedPartsBelong | internal/store/completion.go:53-61 | every recorded part is the bridge's own, on the intent's platform and in its chat |
| CompletionRules.UnreportedPartsFollow | internal/store/completion.go:94-103 | what becomes of a part that is not reported: the target is acknowledged, a revoke deletes the parts of its platform, nothing else changes |
| CompletionRules.EchoIsReservedOnce | internal/store/completion.go:112-130 | an echo is reserved for this row, kept if it is its own already, and never taken from another row |
| Effects.RecoveryClearsExpired | internal/store/work.go:433-452 | recovery releases exactly the expired leases: unsent work is pending again, a begun send becomes uncertain |
| Guarantees.ReleasedTokenIsRefused | internal/store/work.go:31-43 | once no row holds a drawn token, no call presenting it succeeds in any continuation |
| Runs.LostLeaseIsReleased | internal/store/work.go:433-452 | any step that takes a lease away, by settling, recovery or supersession, releases its token |
| Guarantees.SupersededIsRefused | internal/store/work.go:331-338 | the worker of a leased row that an edit, revoke, expiry or tombstone supersedes can neither begin nor settle it in any continuation |
| Guarantees.SettledAtMostOnce | internal/store/completion.go:180 | once a call has settled its leased row, no call with the same token ever succeeds again |
| Guarantees.RecoveryReleases | internal/store/work.go:433-452 | recovery releases the token of every expired lease |
| Guarantees.ForeignTokenIsRefused | internal/store/completion.go:135 | a token works only for the row it was issued to |
| Guarantees.LeasesAreExclusive | internal/store/timers.go:104-124 | in every reachable state outbox rows hold leases exactly while leased or sending, events and timers exactly while leased; two leased events differ in target, and two leased timers in message |
| Runs.StepKeepsTokens | internal/store/work.go:21-30 | every held token was issued to exactly the row that holds it |
| Guarantees.PlannedAtMostOnce | internal/store/work.go:159-195 | each event is planned at most once, and the event of every outbox row was planned exactly once and is done |
| Guarantees.PartsStayInOneChat | internal/store/completion.go:52-61 | all parts of a message on one platform carry the same native chat id |
| Integrity.StepKeepsLinks | internal/store/work.go:237-244 | every step keeps: references point to existing rows, a row's chat is its message's chat, dependencies point to smaller ids, a part carries the native id of its message's chat |
| Provenance.StepKeepsEchoExact | internal/store/deliveries.go:176-184 | every step keeps: each started WhatsApp row has its exact echo tuple reserved, and every echo row belongs to a started row |
| Provenance.MatchEchoExact | internal/store/deliveries.go:93-104 | a matching tuple is one that some started row explains, and the tuple of every started WhatsApp row matches |
| Guarantees.BegunStaysRecognized | internal/store/deliveries.go:176-184 | a begun WhatsApp send is recognized as an echo in every later state |
| Provenance.OwnEchoNeverConflicts | internal/store/completion.go:104-130 | the echo key a worker passes at completion never conflicts with the row's own reservation and adds nothing |
| TopicSafety.StepKeepsChatShapes | internal/store/chats.go:89-141 | every step keeps: an active chat has a topic, generation 0 means no topic was bound, and each rebind adds exactly one |
| Guarantees.OutdatedStaysFenced | internal/store/completion.go:38-40 | a row of an older topic generation is never again claimed, begun or completed as succeeded |
| TopicSafety.OutdatedOrCurrentGeneration | internal/store/deliveries.go:60 | the equality test of the fence admits no row of a later generation: a row differs from its chat only by being older |
| TimerSafety.ExpiryIsExact | internal/store/timers.go:132-226 | a message that an expiry deletes was neither kept nor deleted and at the scheduled version; the deliveries name each of its standing removable parts of the bridge's own exactly once, and each gets a revoke row in the same transaction |
| TimerSafety.CompletedTimerIsCurrent | internal/store/timers.go:140-155 | a timer completes only under its live lease, for the current version of a message that is not deleted nor, for an expiry, kept |
| TimerSafety.ExpiryRows | internal/store/timers.go:184-219 | an expiry supersedes exactly the message's unsent creates, edits and reactions, and adds only revokes of the scheduled version, in the name of the event of the message's first row |
| TimerSafety.ExpiryDeletesParts | internal/store/timers.go:204-219 | exactly the parts of the expired message are deleted with their source states |
| TimerSafety.SchedulesExactlyWhen | internal/store/timers.go:52-85 | a timer is scheduled if and only if it is known with this deadline, or new and for the current version of a message that is not deleted nor, for an expiry, kept |
| ChatRules.KeptStands | internal/store/timers.go:132-155 | along any run a kept message stands until it is revoked, deleted by hand or no longer kept, whatever timers do |
| ChatRules.KeepsExactlyWhen | internal/store/timers.go:227-243 | the flag becomes the argument, on the message of this part alone, exactly if it stands at the expected version |
| TimerSafety.ClaimedTimerIsDue | internal/store/timers.go:86-131 | a claim cancels exactly the pending timers of deleted, changed or (for an expiry) kept messages, and leases the first due timer of least deadline that has no sibling in work |
| TimerSafety.StepKeepsTimersSafe | internal/store/timers.go:104-124 | every step keeps: a message has at most one timer in work |
| Runs.StepKeepsPunctual | internal/store/timers.go:96-124 | every step keeps: the fenced time at which a leased timer was claimed is not before its deadline |
| Guarantees.DeadlineNeverMoves | internal/store/timers.go:52-85 | the deadline of a message, kind and version never changes along a run, and there is only one such timer |
| Expiries.BuiltRevokesCover | internal/coordinator/coordinator.go:253-282 | the list StepTimer builds passes the cover check whenever the message's parts are those of the claim |
| Expiries.BuiltRevokesAreIntents | internal/coordinator/coordinator.go:253-282 | every entry revokes one removable part, in its generation, for the timer's message and version, with the fields CompleteTimer asks of it |
| ExpiryCondition.StepCompletesExactlyWhen | internal/coordinator/coordinator.go:246-285 | a timer step completes its claimed timer if and only if it does so within its lease and the store can take the list: chat active and in each revoke's generation, revokes well formed, keys and send ids free and distinct, and room |
| ExpiryCondition.TimerCompletesExactlyWhen | internal/store/timers.go:132-226 | the same for a completion at any later time with unchanged parts: live lease, message at the scheduled version, not deleted nor (for an expiry) kept, and a list that fits |
| ExpiryCondition.BuiltInsertsExactlyWhen | internal/store/work.go:349-419 | a built list is inserted if and only if it fits as a whole, and then row by row |
| ExpiryCondition.OldPartBlocksExpiry | internal/store/work.go:378-384 | a removable part of another generation, or a chat that is not active, makes the completion fail |
| ExpiryCondition.SharedIdBlocksExpiry | internal/coordinator/coordinator.go:262-271 | two removable parts with one platform and remote id make the completion fail |
| ExpiryCondition.ReachableIsExpiryReady | internal/store/completion.go:52-85 | in every reachable state only deleted messages have revokes, and every part of the bridge's own was sent for a row of its message |
| Scenarios.TwinBlocksExpiry | internal/coordinator/coordinator.go:262-271 | a run to a standing message, due and claimed, whose expiry is refused whatever send ids are allocated |
| Aliasing.ClaimExcludesAliases | internal/store/work.go:44-77 | a claimed event is the least due one that is no alias of a leased event |
| Aliasing.StepKeepsAliasFree | internal/store/completion.go:52-85 | leased events stay free of aliases under every step but a completion, which breaks this if and only if two leased events name its message as old or reported parts |
| Scenarios.CompletionMakesAliases | internal/store/work.go:58 | a run in which a completion turns two leased events into aliases |
| Expiries.StepTimer | internal/coordinator/coordinator.go:246-285 | one timer pass: refused, nothing due with the cancellations committed, or the claimed timer completed with the built list |
| BridgeStore.Store.CheckCover | internal/store/timers.go:156-183 | the loop that empties the needed set accepts exactly the lists that name every removable part once and nothing else |
| QueueBounds.StepKeepsBounds | internal/store/admission.go:76-83 | every step keeps the number and bytes of unresolved inbox and outbox rows within the configured caps |
| QueueBounds.ReacceptIsIdempotent | internal/store/admission.go:64-75 | accepting a known event again succeeds with the same id and no change, even when the queue is full |
| Keys.StepKeepsKeys | internal/store/migrations/001-initial.sql:39-106 | every step keeps the uniqueness constraints of the schema |
| Runs.RunKeepsSound | internal/store/work.go:433-452 | all invariants hold in every reachable state; finished rows, deletions, bindings, echoes, deadlines and the cursor are never taken back |
| ChatRules.RowMovesOnlyBy | internal/store/migrations/001-initial.sql:63-85 | which step may bring an outbox row into each state, and of which row |
| ChatRules.EventMovesOnlyBy | internal/store/migrations/001-initial.sql:48-62 | the same for inbox rows: done by the plan or completion of this event, set aside by its quarantine, leased by a claim, pending by its deferral or recovery |
| ChatRules.TimerMovesOnlyBy | internal/store/migrations/001-initial.sql:97-108 | the same for timers |
| PollSafety.NoUpdateLostOrDoubled | internal/telegram/polling.go:97-131 | at every crash point each issued update below the stored cursor has exactly one inbox row with that update as payload, and the cursor stays in range |
| PollSafety.CursorNeverGoesBack | internal/store/admission.go:99-130 | the cursor never goes back and its epoch never changes, through crashes and restarts |
| PollSafety.UpdatesKeptApart | internal/store/admission.go:31-39 | different updates have different admission keys |
| PollSafety.StartIsLaunch | internal/telegram/polling.go:74-96 | starting the loop is the launch of the poller, taken down again if the loop may not run |
| PollSafety.LoopIsMoves | internal/telegram/polling.go:97-131 | every run of the loop that is answered by the server is a run of the poller |
| PollSafety.PollingLosesNothing | internal/telegram/polling.go:57-132 | every update below the cursor the loop leaves is in the inbox exactly once |
| Polling.Poll | internal/telegram/polling.go:234-258 | the loop over an answer yields the whole batch with the position after it, or the error of its first bad update |
| Polling.PollTakesOrdered | internal/telegram/polling.go:241-258 | an answer is taken if and only if its updates are readable, rise from the cursor on and avoid the last id; then the cursor moves just past the last one and cannot overflow |
| Polling.FirstBadDecides | internal/telegram/polling.go:241-258 | an answer is refused for its first update that is unreadable, does not rise or has the last id |
| Polling.NormalizedExactlyWhen | internal/telegram/polling.go:241-250 | what is read in an update: its id as key, Telegram as source and the cursor's epoch |
| Polling.StartsExactlyWhen | internal/telegram/polling.go:57-96 | the loop starts if and only if its cursor is well formed and, once used, the last contact is known, under seven days old and at most a minute ahead |
| Polling.TurnIsDecided | internal/telegram/polling.go:97-131 | what one turn does after seven days of silence, a passing failure, an unreadable, an empty and any other answer |
| Polling.RunPolling | internal/telegram/polling.go:57-132 | start-up and every turn of the loop with its contact limits, for any answers |
| Polling.LoopHoldsStoredCursor | internal/telegram/polling.go:118-125 | while the loop runs, the cursor in memory is the stored one |
| InboxRules.AdmissionIsDecided | internal/store/admission.go:55-98 | an event is refused as invalid, known unchanged, in conflict, without room, or entered as one new row, with the columns of that row and what counts against the caps written out |
| InboxRules.InvalidExactlyWhen | internal/domain/contracts.go:31-178 | an event is refused as invalid if and only if a field of it, its target, version or text is out of bounds, written out field by field |
| InboxRules.SameEventExactlyWhen | internal/store/admission.go:31-39 | two events share an admission key if and only if source, chat, target author and id, actor, key and epoch agree |
| InboxRules.BatchCommitsExactlyWhen | internal/store/admission.go:99-130 | a batch and its cursor commit if and only if it is within the cap, goes on from the stored cursor in its epoch, and all its events can be admitted in turn |
| InboxRules.InboxClaimTakesLeast | internal/store/work.go:44-77 | a claim leases exactly the least pending, due event that shares neither target nor message with a leased one |
| InboxRules.SettlesExactlyWhen | internal/store/work.go:78-120 | deferring, completing and quarantining succeed exactly under the live lease, and change state, time and lease of that row only |
| Effects.AdmittedOnce | internal/store/admission.go:55-98 | an admitted event has exactly one row, the returned one; a known event adds none, a new one just this row |
| BridgeStore.Store.AcceptTelegramBatch | internal/store/admission.go:99-130 | the batch and the cursor commit together or not at all |
| BridgeStore.Store.ClaimInbox | internal/store/work.go:44-77 | leases the least due event that is no alias of a leased one |
| BridgeStore.Store.PlanEvent | internal/store/work.go:124-196 | source, deliveries, timers and the finished event commit together or not at all |
| BridgeStore.Store.RecoverExpiredLeases | internal/store/work.go:433-452 | the scan over the three queues releases expired leases |
| BridgeStore.Store.ClaimDelivery | internal/store/deliveries.go:46-92 | leases the least claimable row, with a fresh token, and changes nothing else |
| SendRules.BeginReservesOnce | internal/store/deliveries.go:164-188 | a begun send moves one row from leased to sending under its lease, reserves one free echo tuple for WhatsApp and none for Telegram, and changes nothing else |
| SendRules.BeginsExactlyWhen | internal/store/deliveries.go:105-188 | a send begins if and only if the lease is live, the row leased, chat and topic current, the columns agree, the version rule of its operation holds, its target stands and allows it, its message is not deleted and its echo tuple is free |
| BridgeStore.Store.MatchEcho | internal/store/deliveries.go:93-104 | refuses an incomplete tuple, and otherwise finds it if and only if it is reserved |
| BridgeStore.Store.CompleteDelivery | internal/store/completion.go:13-139 | parts, acknowledgments, echoes and the finished row commit together or not at all |
| SendRules.FailsExactlyWhen | internal/store/completion.go:140-184 | a failure is recorded if and only if the row is held and the decision is one it allows |
| SendRules.FailureNeverResends | internal/store/completion.go:180-183 | the row then has exactly the decided state, time and cause and no lease, and everything else stays; it waits again only if it never began and the error passes |
| TopicSafety.TopicCompletionBinds | internal/store/topics.go:12-60 | a completed creation gives a discovered chat this topic alone, in the next generation; a rename changes no chat; exactly the sent row is finished |
| BridgeStore.Store.ClaimTimer | internal/store/timers.go:86-131 | cancels obsolete timers, leases the next due one, whose message is current, not deleted and (for an expiry) not kept, and keeps the cancellations when none is due |
| BridgeStore.Store.CompleteTimer | internal/store/timers.go:132-226 | revokes, deletion and the finished timer commit together or not at all, and only for a message at the timer's version, not deleted and (for an expiry) not kept |
| TopicSafety.BindTopicBinds | internal/store/chats.go:89-122 | the topic then belongs to this chat alone, in the same or the next generation; a topic is replaced only if it was missing, uncertain or blocked; other chats stay |
| BridgeStore.Store.TombstoneMessage | internal/store/mappings.go:144-165 | deletes a message with its parts and unsent work, leaving its text |
| ChatRules.RetiresExactlyWhen | internal/store/mappings.go:125-143 | the part with this identity is marked exactly at the expected source version, and nothing else changes |
| ChatRules.TombstoneDeletes | internal/store/mappings.go:144-165 | the message, its parts and their source states are deleted and its unsent creates, edits and reactions superseded; text and everything else stay |
| ChatRules.DiscoveryAddsOrRenames | internal/store/chats.go:36-59 | a new chat is added without topic, a known one of the same group only gets its title and keeps a partial history |
| ChatRules.StateIsSetExactlyWhen | internal/store/chats.go:123-142 | a state is set if and only if the generation is the current one, it is not discovered, and an active chat has a topic |
| ChatRules.BindsExactlyWhen | internal/store/chats.go:89-122 | when a topic is bound, bound already or in conflict, by group, generation, topic, state and the other chats |
| ChatRules.TopicCompletesExactlyWhen | internal/store/topics.go:12-60 | a topic operation completes if and only if its row is held and sending and the reported topic fits the chat |
| Splitting.SplitText | internal/media/split.go:41-82 | the loop cuts after the last newline, or else space, of the window |
| Splitting.SplitIsLossless | internal/media/split.go:41-82 | the chunks concatenate to the text, each with 1 to maxLen runes |
| Splitting.SplitIsBounded | internal/media/split.go:61-77 | for a limit of at least 128 there are at most (n - 1) / (maxLen - 127) + 1 chunks |
| Splitting.SplitCaption | internal/media/split.go:9-38 | the caption's first part and overflow lose only whitespace around the cut |
| Chunking.TextChunks | internal/coordinator/delivery.go:170-182 | a long text is sent as non-empty chunks that concatenate to it, of which exactly the first is primary |
| Chunking.CaptionChunks | internal/coordinator/delivery.go:156-169 | a long caption keeps its first part and sends the overflow as further chunks, dropping none |
| Chunking.SendChunks | internal/coordinator/delivery.go:184-214 | all parts numbered by chunk, or the outcome of the first failing chunk |
| Chunking.SingleParts | internal/coordinator/delivery.go:204-208 | with one part per send, indexes are 0 to k-1 and exactly the first part is primary |
| Formatting.PrependText | internal/coordinator/inbox.go:873-890 | every entity of valid content covers the same UTF-16 units after the prefix is put in front, and the content stays valid within the size cap |
| Formatting.HyperlinkCoversName | internal/coordinator/meta.go:320-355 | the label follows the text on its own line, with or without a URL; old entities keep their units, and the link, added exactly for a URL and a label, covers exactly the label |
| Formatting.HyperlinkStaysValid | internal/coordinator/meta.go:320-355 | within the size caps the linked content is valid, so no entity splits a surrogate pair |
| Formatting.EntityCoversRunes | internal/domain/contracts.go:160-170 | a valid entity covers whole characters of its text |
| Utf16.EncodeRoundTrip | internal/coordinator/inbox.go:882 | decoding the UTF-16 form gives the text back |
| Domain.DecimalInjective | internal/telegram/polling.go:248 | decimal update keys identify the update id |

## Left out

- SQLite itself: transactions are atomic functions; busy, cancelled and corrupt databases, and the mapping of their errors, are not modelled.
- JSON and SHA-256: payloads and keys are compared as values, and encoded sizes are arbitrary functions in `Options`; that `json_array` and Go's encoder escape some characters differently in the alias test of ClaimInbox is not modelled.
- Strings: length limits count model characters where Go counts bytes, except for message text, whose UTF-8 length is modelled; texts are valid Unicode.
- BridgeStore.Store.ClaimTimer: the order of the claimed parts is that of the table, not by platform and index, since the cover check does not depend on it.
- Integer widths: ids, orders and times are unbounded, except the update ids of the polling loop.
- Platforms and timer kinds are closed datatypes, so the branches for unknown ones do not arise; message ids below zero count as missing rows.
- The stored `result` of a completion, the error code of a decision, chat titles set later, meta-card streams and chat-timer cursors: written but never read by the modelled logic.
- Read-only lookups (`Message`, `Part`, `FindParts`, `FindPartsByRemote`, `SourceState`, `Chat`, `ChatByTopic`, `Delivery`): they return rows of the tables.
- JID canonicalization and message normalization: a candidate carries the parser's verdict and an update the normalizer's result.
- Coordinator.StepDelivery: the several platform calls one row can make (chunks, an edit and then its notice, one removal per part) are one outcome; the choice of edit target, reply mapping, media download and fallback notices are not modelled, and neither is the pending counter.
- Expiries.StepTimer: the send ids the WhatsApp port allocates are a parameter.
- Polling.RunPolling: HTTP failures are the reply `Retry`, waiting and back-off are gaps between clock readings, the platform's initialization succeeds, and cancellation is the end of the list of answers.
- Network clients, FFmpeg and the temporary files, configuration, admin commands and cards, rate limiting and reconnect backoff, logging and redaction: outside the store protocol.
- The in-memory echo set, entities on the first chunk of a split message, unconditional progress and exactly-once delivery: the code gives no general guarantee to state.
