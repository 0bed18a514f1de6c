# Verification of the release notification services

The repository tells subscribers by mail when a GitHub repository they follow publishes a release. Its services are
joined by database outboxes and NATS streams, and most of what can go wrong happens between two transactions, between
a publish and its acknowledgement, or between two replicas. This project models those services as state machines and
proves what holds in every interleaving.

- **Subscribe saga** (`SubscriptionTables`, `SagaProtocol`, `SagaFrames`, `SagaSafety`, `SagaCompletion`,
  `SubscriptionFlows`, `EventLaws`, `ReaperDrain`, `Interleaving`). One committed transaction, or one autocommit
  statement, is one event of `SagaProtocol`; an operation that spans several leaves a task between them, and `Drop`
  loses a task as a crash does. Twenty kinds of event, any order, any number of operations at a time. Ghost history
  records what was created, confirmed, mailed for and compensated; no event reads it.
- **The same service as code** (`SubscriptionService`, `SagaOrchestrator`, `SagaReaper`, `SubscriptionUseCases`,
  `SagaReplies`). Classes with a transaction object whose statements can fail and then poison it, commits whose answer
  can be lost, and a `Yield` that runs any events of others between two transactions. Each method's contract is the
  sequence of protocol events it performs, and for an undisturbed database what it leaves in the tables, row by row, in
  the words of `Outcomes`.
- **Outbox relay and broker** (`Decimal`, `MessageIds`, `Broker`, `OutboxRelay`, `RelayProgress`, `RelayDrain`,
  `RelayReplica`). Several relay replicas with row locks and SKIP LOCKED, publishes that are refused, acknowledged, or
  accepted with the acknowledgement lost, aborts at any point, and the broker's duplicate window.
- **Notification consumer** (`NotificationConsumer`, `NotificationCallback`) and the **whole pipeline** (`Pipeline`,
  `EndToEnd`): saga and outbox, relay, stream, consumer, mailer, saga reply, as one machine. In `Pipeline` the relay
  may copy a row any number of times; `EndToEnd` replaces that by the replicas of `OutboxRelay` and the broker's
  duplicate window, and refines `Pipeline`.
- **Subscribers who act on their mails** (`Subscribers`, `MailedCompletion`, `SagaWitnesses`): the same machine, in
  which a confirmation needs a mail that carried the confirm token, and an unsubscribe one that carried the unsubscribe
  token; every call of the mailer counts, as a refusal may come after the mail went out. Safety is proved without that
  restriction; what can still happen, and what does go wrong, is proved with it.
- **Release scanner** (`ReleaseHistory`, `ScanSchedule`, `ScanResults`, `ReleaseScanner`). The spawn loop, semaphore,
  wait group, cancellation and transactions step by step, and the history of observations the result depends on.
  `ReleaseDelivery` joins the scanner with the pipeline.
- **Auth** (`RefreshTokens`, `Sessions`, `AuthService`, `Accounts`) and the **password string** (`Base64`,
  `PasswordCodec`).

`calm` in a class is an environment in which nothing fails and nobody else runs; a contract under `calm` says what an
operation does then. Clocks, random draws, the mailer's and GitHub's answers, and parsed messages are parameters or
nondeterministic values. Row ids come from sequences and are never reused.

Some properties do not hold of the code. Each is stated with the exact condition under which it does, and with a run
or an input that reaches the failure:

- Not every saga finishes: `SagaCompletion.CompensatingFinishesIff` over every run of the service, and
  `MailedCompletion.FinishesIff` over the runs in which subscribers act on their mails; how one is stranded:
  `SagaCompletion.LostCompensationStrandsIff` and `SagaCompletion.CrashStrands`. Reached in
  `SagaWitnesses.SomeSagaIsStranded` and, with the subscription still there, in `SagaWitnesses.SomeLiveSagaIsStuck`.
- The orphan cleanup is not safe against a subscribe between check and delete:
  `SubscriptionFlows.CleanupCascadesIffSubscribed` and `SubscriptionFlows.CleanupCanRemoveConfirmed`, reached in
  `SagaWitnesses.SomeConfirmedIsRemoved`.
- An outbox row is stored once exactly when its publishes fall into one duplicate window: `OutboxRelay.CopiesBounded`,
  with two copies in `OutboxRelay.SomeRowHasTwoCopies`.
- The scanner is right exactly on tags that are neither empty nor the sentinel: `ReleaseHistory.CorrectIffUsable` and
  `ReleaseHistory.EmptyTagForgets`. The sentinel is a boundary case only; it holds a space, which
  `services/monitoring/internal/monitoring/repository.go:3-6` notes a tag cannot.
- The lenient base64 decoder is not injective: `Base64.EncodeOfDecode`, with two strings that do not come back in
  `Base64.SomeStringsDoNotComeBack`.

Where code and documentation differ the model follows the code. The state diagram of `docs/SDD.md:275-281` has no edge
from STARTED to COMPLETED, none from STARTED to COMPENSATING by the reaper, and none from COMPENSATING to COMPLETED
when a confirmation completes the saga; the code takes all three. `docs/SDD.md:543` says that
`repositories.last_seen_tag` is never written. Monitoring no longer writes it (`docs/SDD.md:464`), but the fan-out does.

## Model

| member | source | states |
|---|---|---|
| `SagaProtocol.EventKeepsInv` | services/subscription/internal/saga/orchestrator.go:32-158 | every committed step of every operation keeps the invariant that ties sagas, subscriptions, outbox rows, pending compensations and history together |
| `SagaFrames.SagaUnder` | services/subscription/internal/saga/orchestrator.go:32-158 | the state every kind of event leaves a saga in; no event removes a saga or changes more of it than state and last error |
| `SagaFrames.TaskOrigin` | services/subscription/internal/saga/orchestrator.go:32-158 | a compensation is started only by an EmailFailed or a reaper mark of its saga, the second half of a confirmation only by that confirmation, an Ensure obtains only the live repository of its name, and a fan-out lists only subscriptions of the repository it is for |
| `SagaSafety.MovesAlongEdges` | services/subscription/internal/saga/orchestrator.go:32-158 | a committed step moves a saga along an edge of the state diagram or leaves its state, never removes it, and never changes its id, subscription, repository, address or deadline |
| `SagaSafety.TerminalForever` | services/subscription/internal/saga/orchestrator.go:100-158 | COMPLETED and FAILED are absorbing over every continuation of every reachable state, although compensation writes the state unread |
| `SagaSafety.FailsOnlyByOwnCompensation` | services/subscription/internal/saga/orchestrator.go:88-119 | a step makes a saga FAILED if and only if it is that saga's own compensation finding its subscription present and unconfirmed, and then that subscription is gone |
| `SagaSafety.OneSideWins` | services/subscription/internal/saga/orchestrator.go:88-158 | FAILED exactly if a compensation deleted the subscription; a deleted one was never confirmed; a COMPLETED saga's subscription was confirmed or is gone, and not by compensation |
| `SagaSafety.ConfirmedNeverFails` | services/subscription/internal/subscription/usecase/confirm.go:29-43 | once a subscription is confirmed, no continuation makes its saga FAILED or lets a compensation delete it |
| `SagaSafety.OneCompensation` | services/subscription/internal/saga/reaper.go:43-76 | over any run at most one compensation is started for a saga: none while it is active, exactly one for a saga that is COMPENSATING or FAILED |
| `SagaSafety.PendingCompensation` | services/subscription/internal/saga/orchestrator.go:88-119 | a pending compensation is the only one of its saga, never of an active or FAILED one, and one pending for a COMPLETED saga will find the subscription confirmed or gone |
| `SagaSafety.ChangesLowerRank` | services/subscription/internal/saga/orchestrator.go:32-158 | every change of state lowers STARTED > AWAITING_CONFIRMATION > COMPENSATING > terminal, so a saga changes at most three times |
| `SagaSafety.AtMostThreeChangesEach` | services/subscription/internal/saga/orchestrator.go:32-158 | a run that ends with n sagas has at most 3n state changes, whatever was redelivered or reordered |
| `SagaCompletion.CompensatingFinishesIff` | services/subscription/internal/saga/store.go:77-84 | a COMPENSATING saga can still finish if and only if its compensation or the second half of its confirmation is pending, or its subscription still exists |
| `SagaCompletion.ActiveCanFinish` | services/subscription/internal/saga/reaper.go:43-76 | every STARTED or AWAITING_CONFIRMATION saga has a continuation that ends it |
| `SagaCompletion.StrandedForever` | services/subscription/internal/saga/orchestrator.go:68-71 | a saga with nothing left that could move it stays COMPENSATING in every continuation; neither redelivery nor the reaper picks it up |
| `SagaCompletion.LostCompensationStrandsIff` | services/subscription/internal/saga/reaper.go:65-73 | a crash between the mark and the compensation strands an expired saga at once if and only if its subscription is gone and no confirmation is pending |
| `SagaCompletion.CrashStrands` | services/subscription/internal/saga/reaper.go:65-73 | for an expired saga whose subscription exists and for which no confirmation is pending, a crash between the mark and the compensation, followed by an unsubscribe, strands the saga in every continuation |
| `SagaWitnesses.SomeSagaIsStranded` | services/subscription/internal/saga/reaper.go:65-73 | confirmed from the mail, the second half of the confirmation lost, marked by a reaper that crashes, unsubscribed by the link of a release mail: a saga stranded in COMPENSATING |
| `MailedCompletion.FinishesIff` | services/subscription/internal/saga/store.go:77-84 | with subscribers who act on their mails only, a COMPENSATING saga can finish if and only if its compensation or the second half of its confirmation is pending, or its subscription exists and a mail with its confirm token was sent or can still be sent from a message of the stream or a pending row |
| `MailedCompletion.ActiveFinishes` | services/subscription/internal/saga/reaper.go:43-76 | every active saga still has a run that ends it |
| `SagaWitnesses.SomeLiveSagaIsStuck` | services/notification/internal/consumer/consumer.go:60-91 | after five crashed deliveries and a lost compensation, a saga that nothing ends although its subscription exists |
| `SubscriptionFlows.SubscribeAddsTripleOrNothing` | services/subscription/internal/subscription/usecase/subscribe.go:161-191 | a subscribe adds one unconfirmed subscription, one STARTED saga pointing to it and one confirmation row with that saga's id and that token, or changes no table |
| `SubscriptionFlows.SagasAreDistinct` | services/subscription/internal/subscription/usecase/subscribe.go:161-191 | in every reachable state sagas have pairwise distinct ids, subscriptions and confirmation rows |
| `SubscriptionFlows.CatalogKeys` | services/subscription/internal/catalog/usecase/ensure.go:25-50 | in every reachable state no two repositories share a name and every subscription's repository exists |
| `SubscriptionFlows.EnsureReturnsLiveId` | services/subscription/internal/catalog/usecase/ensure.go:25-50 | at the step at which an Ensure obtains its id, that id is the live repository of the name asked for |
| `EventLaws.SubscriptionsAfter` | services/subscription/internal/subscription/internal/store/queries.go:27-30 | exactly which subscriptions every kind of event leaves: an unsubscribe removes the row of its token, a compensation its pending row, a cleanup the rows of its repository, and nothing but a confirmation changes one |
| `EventLaws.OneRemoved` | services/subscription/internal/saga/store.go:119-130 | in every reachable state an unsubscribe and a compensation remove at most one subscription |
| `EventLaws.RepositoriesAfter` | services/subscription/internal/catalog/usecase/delete_orphaned.go:33-42 | exactly which repositories every kind of event leaves, under which name, and which tag a fan-out leaves there |
| `EventLaws.MarksAfter` | services/subscription/internal/outbox/relay.go:74-82 | an outbox row is marked exactly by the publish that names it and never otherwise changed |
| `SubscriptionFlows.CleanupCascadesIffSubscribed` | services/subscription/internal/catalog/usecase/delete_orphaned.go:23-42 | after a check that found nothing, and whatever others commit next, the delete removes subscriptions if and only if a subscribe to that repository committed in between and its subscription is still there |
| `SubscriptionFlows.CleanupCanRemoveConfirmed` | services/subscription/internal/catalog/usecase/delete_orphaned.go:23-42 | from any reachable state where a cleanup and a subscribe to its repository are due, check, subscribe, confirmation and delete run to a reachable state without the confirmed subscription |
| `SagaWitnesses.SomeConfirmedIsRemoved` | services/subscription/internal/catalog/usecase/delete_orphaned.go:23-42 | between the check and the delete after an unsubscribe from a release mail, a second subscriber subscribes and confirms from the mail, and the delete removes that confirmed subscription |
| `SubscriptionFlows.FanoutQueuesOneRowEach` | services/subscription/internal/fanout/worker.go:94-147 | a committed fan-out adds exactly one row per listed recipient, with that recipient's address and token, and changes no other row |
| `SubscriptionFlows.ReleasesGoToConfirmed` | services/subscription/internal/fanout/worker.go:82-147 | every queued release row names a subscription that had been confirmed, with its address and token; none is for a subscription a compensation removed |
| `ReaperDrain.ReapPassReaps` | services/subscription/internal/saga/reaper.go:43-76 | an undisturbed pass ends exactly the sagas it picked, each FAILED with the deadline as reason and its subscription deleted, or COMPLETED, removes exactly the repositories whose last subscription went, and changes no other saga, subscription or outbox row |
| `ReaperDrain.ReaperDrains` | services/subscription/internal/saga/reaper.go:43-76 | with n overdue sagas, ceil(n/50) undisturbed passes leave none: the saga, the subscription, the repository and the outbox rows that remain, each named exactly |
| `Interleaving.ForeignRunKeepsTask` | services/subscription/internal/saga/orchestrator.go:77-81 | whatever others commit between two transactions of an operation, the operation finds its own place as it left it |
| `SubscriptionService.Tx.UpdateState` | services/subscription/internal/saga/store.go:105-117 | writes one saga's state, or fails and aborts the transaction |
| `SubscriptionService.Tx.DeleteUnconfirmedSubscription` | services/subscription/internal/saga/store.go:119-130 | deletes the row exactly if it is present and unconfirmed, and says which |
| `SubscriptionService.Tx.FindExpiredForUpdate` | services/subscription/internal/saga/store.go:77-103 | up to the limit of distinct active sagas past their deadline; all of them or the limit when no row is locked |
| `SubscriptionService.Tx.CreateSubscription` | services/subscription/internal/subscription/internal/store/store.go:24-56 | inserts, or reports the violated key as an existing subscription or a token conflict, and aborts the transaction |
| `SubscriptionService.Database.Commit` | services/subscription/internal/saga/orchestrator.go:117-119 | an aborted transaction leaves no trace; a commit that returns an error took effect or did not |
| `SagaOrchestrator.Orchestrator.HandleEmailSent` | services/subscription/internal/saga/orchestrator.go:32-54 | STARTED becomes AWAITING_CONFIRMATION, every other state stays; an unknown saga is an error and changes nothing; undisturbed, these are the only two results |
| `SagaOrchestrator.Orchestrator.HandleEmailFailed` | services/subscription/internal/saga/orchestrator.go:56-82 | an active saga is marked and then compensated in a second transaction, with anything in between; a commit error skips the compensation even if the mark was written; undisturbed, a known saga is answered without error, and an active one ends FAILED with its pending subscription and its orphaned repository gone, or COMPLETED if there was nothing to undo |
| `SagaOrchestrator.Orchestrator.RunCompensation` | services/subscription/internal/saga/orchestrator.go:88-132 | no error means the compensation committed and its cleanup went as far as it had to; cleanup errors do not count; an error means it did not run or its answer was lost, and that exactly one transaction of the database failed |
| `SagaOrchestrator.Orchestrator.HandleConfirmed` | services/subscription/internal/saga/orchestrator.go:134-158 | completes the subscription's saga unless it is terminal; no saga is not an error; undisturbed it never fails |
| `SagaOrchestrator.Orchestrator.DeleteIfOrphaned` | services/subscription/internal/catalog/usecase/delete_orphaned.go:23-42 | checks and then deletes in two statements, with anything in between; undisturbed, the repository is gone exactly if no subscription refers to it |
| `SagaReaper.Reaper.MarkExpired` | services/subscription/internal/saga/reaper.go:43-67 | marks every picked saga in one transaction or none; a failed update is only logged but fails the commit |
| `SagaReaper.Reaper.Reap` | services/subscription/internal/saga/reaper.go:43-76 | after the marks committed every picked row gets its own compensation whatever the others returned, and no more of them end with an error than the database failed transactions; if the marks are reported as failed no compensation runs; undisturbed it is exactly one pass of the drain |
| `SubscriptionUseCases.Confirm.Execute` | services/subscription/internal/subscription/usecase/confirm.go:29-43 | confirms in one transaction and completes the saga in the next; success means the saga is COMPLETED, whatever came in between; undisturbed, the subscription of the token is confirmed, its saga COMPLETED and nothing else changed, or no subscription has the token |
| `SubscriptionUseCases.Unsubscribe.Execute` | services/subscription/internal/subscription/usecase/unsubscribe.go:32-51 | find, delete, check and delete repository as separate statements; success means the delete of this call met the row of that token, left none, and the cleanup ran; an error says which of them had run, a lost answer included; undisturbed, exactly that subscription is gone, and its repository if it was the last |
| `SubscriptionUseCases.Ensure.Execute` | services/subscription/internal/catalog/usecase/ensure.go:25-50 | find, else create, else find again, with anything in between: which of the statements took effect for every result; the id returned is the live repository of that name at the last statement; undisturbed, a new row if and only if no repository had the name |
| `SubscriptionUseCases.Subscribe.CreateAndEnqueue` | services/subscription/internal/subscription/usecase/subscribe.go:161-191 | the three inserts commit together or not at all, and a reported conflict is a real one; undisturbed, it succeeds if and only if repository, address, saga id and both tokens allow it |
| `SubscriptionUseCases.Subscribe.CreatePending` | services/subscription/internal/subscription/usecase/subscribe.go:123-159 | each attempt with newly drawn tokens, the successful one with the last drawn; one linked triple or nothing; a token conflict is returned only after five attempts; undisturbed, it succeeds if one of the first five draws is free and the address does not hold a subscription to that repository |
| `SubscriptionUseCases.Fanout.ListConfirmed` | services/subscription/internal/subscription/internal/store/store.go:110-133 | exactly the confirmed subscriptions of the repository, each once |
| `SubscriptionUseCases.Fanout.Queue` | services/subscription/internal/fanout/worker.go:94-124 | one committed fan-out of the listed recipients, or no change |
| `SubscriptionUseCases.Fanout.HandleReleaseFound` | services/subscription/internal/fanout/worker.go:82-124 | lists, then queues one row per listed recipient, with anything in between; success means exactly one such commit, an error none or one whose answer was lost; undisturbed, one pending mail for each confirmed subscription of the repository, and the tag remembered |
| `SagaReplies.ReplyConsumer.Handle` | services/subscription/internal/saga/consumer.go:56-80 | unreadable and unknown replies are dropped as handled; the others reach the saga they name, or report that there is none; an EmailFailed handled without error has committed the compensation of an active saga |
| `SagaReplies.ReplyConsumer.OnMessage` | services/subscription/internal/saga/consumer.go:34-45 | a reply is acknowledged only if its event took effect or it needs none, for an EmailFailed of an active saga its mark and its compensation; one for an unknown saga is asked for again; undisturbed, acknowledged if and only if it names a known saga or none, with the outcome of that saga in the tables |
| `SagaReplies.RedeliveryIsHarmless` | services/subscription/internal/saga/orchestrator.go:44-71 | handling a reply again, after anything, changes nothing; neither does an EmailSent that arrives after an EmailFailed |
| `Decimal.FormatIntInjective` | services/subscription/internal/outbox/relay.go:64 | different row ids print differently |
| `MessageIds.MsgIdsEqualIff` | services/notification/internal/consumer/consumer.go:169-199 | two message ids are equal exactly if the numbers are and the producers are the same or are the two that use bare numbers |
| `MessageIds.MsgIdTexts` | services/notification/internal/consumer/consumer.go:163-199 | the ids as they go over the wire |
| `MessageIds.MsgIdsDistinctInStream` | services/auth/internal/outbox/relay.go:64-66 | within one stream a message id names one message of one producer, so deduplication never drops a different message |
| `Broker.DedupOfOne` | services/subscription/internal/outbox/relay.go:67 | with any other traffic in the stream, a message is stored at least once and at most once per accepted publish, and exactly once if and only if every publish falls into the window of the first |
| `OutboxRelay.EventKeepsInv` | services/subscription/internal/outbox/relay.go:45-83 | any step of any replica keeps the invariant: every accepted publish of a row is its mark, a running pass, or a pass that ended without marking it |
| `OutboxRelay.CopiesBounded` | services/subscription/internal/outbox/relay.go:45-83 | a published row has a copy; copies are at most 1 plus the passes that got it accepted and ended without marking it; exactly one if and only if all its publishes fall into one window |
| `OutboxRelay.SomeRowHasTwoCopies` | services/subscription/internal/outbox/relay.go:45-83 | with any window, a pass that ends unmarked and a publish after the window leave two copies of one row |
| `OutboxRelay.LocksExclude` | services/subscription/internal/outbox/queries.go:5-12 | no two replicas work on the same row and nobody works on a published one |
| `RelayDrain.OnePass` | services/subscription/internal/outbox/relay.go:52-82 | an undisturbed pass publishes the hundred smallest pending rows, or all of them, and leaves the rest pending |
| `RelayDrain.RelayDrains` | services/monitoring/internal/relay/relay.go:47-85 | n pending rows drain in ceil(n/100) undisturbed passes, each row once, in id order across the passes, and no other row changes |
| `RelayProgress.PendingComes` | services/subscription/internal/outbox/queries.go:5-12 | whatever other replicas hold, every pending row can be brought to its publish without anything else reaching the stream first |
| `RelayReplica.Outbox.FetchForUpdate` | services/subscription/internal/outbox/store.go:33-52 | the smallest pending rows nobody holds, in id order, up to the limit |
| `RelayReplica.Outbox.Publish` | services/subscription/internal/outbox/relay.go:67-72 | one publish of the next row of the pass: refused, acknowledged, or accepted unheard |
| `RelayReplica.Outbox.PublishEach` | services/subscription/internal/outbox/relay.go:61-72 | every fetched row is published once, in order, a refused one is skipped, and the acknowledged ones are collected in order |
| `RelayReplica.Outbox.Finish` | services/subscription/internal/outbox/relay.go:74-82 | marks exactly the acknowledged rows and commits, or leaves all of them pending |
| `RelayReplica.Outbox.PublishPending` | services/auth/internal/outbox/relay.go:45-85 | one pass publishes the fetched rows in id order, skips refused ones, and marks exactly the acknowledged ones if it commits, with other replicas running in between |
| `NotificationConsumer.EventKeepsInv` | services/notification/internal/consumer/consumer.go:60-211 | any step of any delivery, crash, lost acknowledgement or refused publish keeps the consumer's invariant |
| `NotificationConsumer.MailerBound` | services/notification/internal/consumer/consumer.go:102-161 | the mailer is called at most five times for a message, once per delivery, always with what the message says |
| `NotificationConsumer.AckedMeansSettled` | services/notification/internal/consumer/consumer.go:73-90 | a message is acknowledged only if its mail was accepted, its subject is unknown, or its dead letter was accepted |
| `NotificationConsumer.DeadLettersAreEarned` | services/notification/internal/consumer/consumer.go:102-114 | a message that can be mailed is dead-lettered only at the fifth delivery, after the mailer refused it there, and the letter carries message and refusal; an unreadable one is never mailed |
| `NotificationConsumer.NothingLostSilently` | services/notification/internal/consumer/consumer.go:70-113 | once nothing works on a message's fifth delivery any more, the message is settled, unless that delivery was cut short or its dead letter was refused |
| `NotificationConsumer.RepliesAreTrue` | services/notification/internal/consumer/consumer.go:163-185 | EmailSent follows an accepted mail and EmailFailed a refusal of the fifth delivery, each of a message with that saga's id |
| `NotificationCallback.Consumer.ProcessMessage` | services/notification/internal/consumer/consumer.go:116-161 | calls the mailer once with the message's fields, or not at all, and classifies the answer |
| `NotificationCallback.Consumer.ToDLQ` | services/notification/internal/consumer/consumer.go:187-211 | the message is acknowledged only after its dead letter was; either way the saga is told |
| `NotificationCallback.Consumer.OnMessage` | services/notification/internal/consumer/consumer.go:60-91 | the callback of one delivery performs one complete sequence of effects, whatever other deliveries do meanwhile; undisturbed, what it leaves for every kind of message and answer of the mailer: acknowledgement, letter and reply, at which delivery |
| `Pipeline.StepKeeps` | services/notification/internal/consumer/consumer.go:60-91 | any step of service, relay, consumer or reply handling keeps the invariant across the two services |
| `Pipeline.AwaitingMeansMailed` | services/notification/internal/consumer/consumer.go:79-86 | a saga ever in AWAITING_CONFIRMATION had a mail accepted that carried its own subscription's address and stored token |
| `Pipeline.CompensationHasCause` | services/subscription/internal/saga/orchestrator.go:56-86 | a compensation was started only after the deadline, or after the mailer refused that saga's own mail at the fifth delivery |
| `Pipeline.MailsAreForTheirOwners` | services/notification/internal/consumer/consumer.go:116-161 | every confirmation mail is some saga's own; every release mail goes to a subscription that had been confirmed and that no compensation removed |
| `EndToEnd.StepKeeps` | services/subscription/internal/outbox/relay.go:45-83 | any step of service, relay replicas, broker, consumer or reply handling keeps the stream equal to the publishes the broker stored, row by row |
| `EndToEnd.RefinesPipeline` | services/subscription/internal/outbox/relay.go:45-83 | a run with the real replicas and the duplicate window is, for the services and the stream, a run of the pipeline, and for the subscription service a run of its protocol; so what is proved of those holds of it |
| `EndToEnd.CallsPerRow` | services/notification/internal/consumer/consumer.go:102-161 | for one outbox row the mailer is called at most five times per copy in the stream and at most 5 (1 + n) times with n the passes that got it accepted and ended unmarked; at most five times if its publishes fall into one window, which is exactly when it has one copy |
| `EndToEnd.CallsPerSaga` | services/notification/internal/consumer/consumer.go:116-137 | the confirmation mails of one saga, whoever else uses the stream: at most 5 (1 + n), and at most five if the publishes of its row fall into one window |
| `ReleaseHistory.CollapseCollapses` | services/monitoring/internal/monitoring/repository.go:14-16 | the reference keeps, in order, exactly the releases whose tag differs from the one just before, the first included; so no two neighbours of it are alike and both ends stay |
| `ReleaseHistory.FoldIsExpected` | services/monitoring/internal/monitoring/worker.go:162-234 | for any history with usable tags, the announcements are the seen tags without consecutive repeats, minus the baseline, and the cursor is the last tag or the sentinel |
| `ReleaseHistory.CorrectIffUsable` | services/monitoring/internal/monitoring/repository.go:3-16 | the scanner is correct on every history over a set of tags if and only if the set contains neither the empty tag nor the sentinel |
| `ReleaseHistory.EmptyTagForgets` | services/monitoring/internal/monitoring/worker.go:172-174 | after an empty tag, in any history, the next observation is taken for the first and announces nothing |
| `ReleaseHistory.SentinelTagBreaks` | services/monitoring/internal/monitoring/repository.go:3-6 | boundary case: a first release tagged like the sentinel would not be announced |
| `ScanSchedule.EventKeepsInv` | services/monitoring/internal/monitoring/worker.go:110-160 | any step of the loop or of any goroutine keeps the counts, places, snapshots and flags, and the refinement of every repository's history |
| `ScanSchedule.TakeEffectRefines` | services/monitoring/internal/store/cursors.go:45-61 | moving the cursor and queueing the announcement in one transaction is one step of the fold of that repository and of no other |
| `ScanResults.ScannerRefinesHistory` | services/monitoring/internal/monitoring/worker.go:162-234 | over any number of scans, failures and schedules, announcements and cursor of a repository depend only on its successful observations, as the reference says |
| `ScanResults.ScanSafety` | services/monitoring/internal/monitoring/worker.go:117-136 | at most ten repositories in flight, each listed one started at most once in listing order, its snapshot tag equal to the stored cursor until its own effect |
| `ScanResults.WaitReturns` | services/monitoring/internal/monitoring/worker.go:89-149 | when the wait returns the semaphore is empty, everything started has finished, everything listed if not cancelled, and the rate limit is reported exactly if some repository met it, and then the scan was cancelled |
| `ScanResults.CancelledStops` | services/monitoring/internal/monitoring/worker.go:117-136 | whatever the goroutines do, a cancelled scan starts at most the one repository it already waits a slot for, and none otherwise |
| `ScanResults.RateLimitCancels` | services/monitoring/internal/monitoring/worker.go:141-160 | once the goroutine of a repository that was told of the rate limit is at its end, the scan is cancelled |
| `ScanResults.WhoCancels` | services/monitoring/internal/monitoring/worker.go:141-160 | a scan is cancelled by its owner, or by a goroutine after the rate limit was met |
| `ScanResults.LooksTakeEffect` | services/monitoring/internal/monitoring/worker.go:162-211 | a successful look takes effect at once or is written and takes effect unless rolled back; nothing else changes history, cursors or announcements; a rate limit is recorded |
| `ScanResults.NeverStuck` | services/monitoring/internal/monitoring/worker.go:117-138 | semaphore and wait group never block each other |
| `ScanResults.ScanEnds` | services/monitoring/internal/monitoring/worker.go:110-139 | under every schedule a scan of n repositories takes at most 7n + 3 steps of its own |
| `ReleaseScanner.CursorStore.GetLastSeenTag` | services/monitoring/internal/store/cursors.go:32-43 | the stored cursor, or the empty one for a repository without a row |
| `ReleaseScanner.CursorStore.UpdateLastSeenTagAtomic` | services/monitoring/internal/store/cursors.go:45-61 | cursor and announcement change together or not at all |
| `ReleaseScanner.Adapter.ListTracked` | services/monitoring/internal/catalogclient/catalogclient.go:31-54 | every listed repository once, in order, with its stored cursor; one failed read fails the listing |
| `ReleaseScanner.Worker.SeedCursor` | services/monitoring/internal/monitoring/worker.go:213-234 | the first observation becomes the cursor and announces nothing |
| `ReleaseScanner.Worker.ProcessRepository` | services/monitoring/internal/monitoring/worker.go:162-211 | the observation takes effect whole or nothing changes; no error means it took effect |
| `ReleaseDelivery.StepKeeps` | services/subscription/internal/fanout/worker.go:82-147 | any step of the scanner, the monitoring relay or the pipeline keeps: whatever release is on its way was announced for the repository of the subscription it is for |
| `ReleaseDelivery.ReleaseMailsWereSeen` | services/monitoring/internal/monitoring/worker.go:162-211 | every release mail goes to a subscription that had been confirmed, and its release was seen by a look at that subscription's repository that took effect, not the first; over every schedule of the scanner and every interleaving of the services |
| `RefreshTokens.EventKeepsInv` | services/auth/internal/user/usecase/refresh.go:31-73 | any interleaving of register, verify, login, refresh and logout keeps the chains, the count of live tokens and the verified users |
| `Sessions.RedeemedAtMostOnce` | services/auth/internal/user/usecase/refresh.go:40-51 | a refresh token is redeemed at most once and is then revoked |
| `Sessions.LoginsAreChains` | services/auth/internal/user/usecase/refresh.go:49-62 | the tokens of one login are one linear chain of one user, all but the last redeemed once and revoked, the last not redeemed |
| `Sessions.OneChainEach` | services/auth/internal/user/usecase/login.go:61-64 | every token belongs to exactly one login |
| `Sessions.LiveTokensCounted` | services/auth/internal/user/queries.go:48-51 | unrevoked tokens are the logins less the logouts that hit an unrevoked token |
| `Sessions.TokensNeedVerification` | services/auth/internal/user/usecase/verify.go:29-58 | every token's user used one of their own verification tokens, and no verification token is used twice |
| `Sessions.DeadForever` | services/auth/internal/user/usecase/refresh.go:45-47 | a token that is revoked or expired stays so over every continuation |
| `Sessions.DeadEndEndsLogin` | services/auth/internal/user/usecase/logout.go:22-24 | once the last token of a login is revoked or expired, none of its tokens can be redeemed ever again |
| `Accounts.UserAfter` | services/auth/internal/user/usecase/register.go:40-88 | a user appears by registering, with that address and hash, keeps both, and is verified by a verification of their own only |
| `Accounts.TokenAfter` | services/auth/internal/user/usecase/refresh.go:49-62 | a refresh token comes from a login or from another token of the same user, with the expiry given, and only its flag ever changes |
| `Accounts.RegisteredCanLogIn` | services/auth/internal/user/usecase/login.go:31-67 | after a registration and any run a login is told that the address is not verified; after the verification and any run it is let in exactly with a password that gives the stored key, so with their own |
| `AuthService.AuthStore.Refresh` | services/auth/internal/user/usecase/refresh.go:31-73 | succeeds only for a known, unrevoked, unexpired token, trades it for one new token of the same user with a new expiry, and on an error changes nothing unless the commit's answer was lost; undisturbed, exactly those succeed |
| `AuthService.AuthStore.Logout` | services/auth/internal/user/usecase/logout.go:22-24 | the token is not live afterwards and no other token changes |
| `AuthService.AuthStore.VerifyEmail` | services/auth/internal/user/usecase/verify.go:29-58 | uses an unused, unexpired token and verifies its user in one transaction, and names the reason when it does not; undisturbed, which answer for which token |
| `AuthService.AuthStore.Register` | services/auth/internal/user/usecase/register.go:40-88 | user with the hash of the password, verification token with its expiry and mail event together or not at all, and only for a free address and a password of eight bytes; undisturbed, it succeeds exactly then |
| `AuthService.AuthStore.InsertToken` | services/auth/internal/user/usecase/login.go:52-67 | after anything others did since the user was read: success means the drawn token is live and starts a new chain of that user; an error means that no token was inserted or the answer was lost |
| `AuthService.AuthStore.Login` | services/auth/internal/user/usecase/login.go:31-67 | success means a verified user whose stored hash the password matches, and a new live token that starts a chain, with anything between read and insert; undisturbed, which answer for which address and password, and the token stored with its expiry |
| `Base64.DecodeOfEncode` | services/auth/internal/user/password.go:36-37 | unpadded base64 decodes every byte string it encodes |
| `Base64.EncodeOfDecode` | services/auth/internal/user/password.go:58-66 | which strings decode, and that encoding the result gives the string back if and only if it had no line breaks and its spare bits are zero |
| `Base64.SomeStringsDoNotComeBack` | services/auth/internal/user/password.go:58-66 | spare bits and a line break are each lost in decoding |
| `Base64.EncodeShape` | services/auth/internal/user/password.go:36-37 | encoded text has only alphabet characters, four for three bytes |
| `Base64.DigitIs` | services/auth/internal/user/password.go:36-37 | the sixty-four digits in order |
| `Base64.SextetsAreBits` | services/auth/internal/user/password.go:36-37 | three bytes and their four digits are the same twenty-four bits, highest first; so for the shorter ends |
| `PasswordCodec.ScanOfFormat` | services/auth/internal/user/password.go:54 | a printed number is scanned back in any field it fits, up to the first character that is not a digit |
| `PasswordCodec.CostReadsBack` | services/auth/internal/user/password.go:52-56 | every cost in the fields' ranges reads back as printed |
| `PasswordCodec.HashSplits` | services/auth/internal/user/password.go:33-45 | the printed string has exactly six parts whatever salt and key are, the third and fourth being `v=19` and `m=65536,t=1,p=4`, and the key is argon2 at that cost with 32 bytes |
| `PasswordCodec.ReadOfPrint` | services/auth/internal/user/password.go:41-66 | whatever the version, a printed hash decodes to the cost, salt and key it was printed from |
| `PasswordCodec.VerifyOfPrint` | services/auth/internal/user/password.go:48-71 | a stored hash of any cost is compared with argon2 of the attempt at that cost, salt and key length |
| `PasswordCodec.VerifyOfHash` | services/auth/internal/user/password.go:41-71 | verifying any password against a printed hash compares argon2 of both passwords under the stored salt and cost |
| `PasswordCodec.OwnPasswordMatches` | services/auth/internal/user/password.go:25-71 | the password a hash was made from verifies as true, for every password and salt |
| `PasswordCodec.OnlyArgon2idIsRead` | services/auth/internal/user/password.go:41-66 | nothing but a string of six parts that names argon2id, a version and a cost is compared with a password |

## Left out

- HTTP and gRPC handlers, routing, middleware, health checks, metrics, logging, configuration, TLS, migrations and generated code.
- The text of mails and SMTP: the mailer is a call that accepts or refuses.
- JSON: payloads are datatypes, and "cannot be parsed" is one possible message.
- Isolation inside the database: a transaction that commits is one atomic step, its row locks are what makes that so, and an aborted one is no step. A transaction waiting for a lock is one that has not happened yet.
- NATS internals beyond the duplicate window, the delivery count of five, redelivery and lost acknowledgements; a negative acknowledgement only makes a redelivery possible, which it is anyway.
- Cryptography and randomness: argon2 and the token hash are parameters, and only unique keys keep drawn tokens apart. argon2's own demands on its cost parameters are not modelled.
- The GitHub client and address parsing: arbitrary answers.
- Several scanner processes at once: the scanner's snapshot is the stored cursor because one process runs one scan at a time, and `deploy/k8s/monitoring/deployment.yaml:9` deploys one.
- Integer width: row ids and stream sequences are unbounded integers, so what is proved of them holds of 64-bit ones.
- `ReleaseScanner.Worker.ProcessRepository`: does not interleave with other goroutines; it touches shared state in one transaction, and the schedules are in `ScanSchedule`.
- Subscription listing by address, repository lookup against GitHub in the subscribe use case, and the dead letter inspector add only simple reads.
- Every message is not claimed to be acknowledged: a dead letter that cannot be published on the fifth delivery leaves its message unacknowledged.
