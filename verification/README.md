# Dispatch, registration and support code, verified

A Dafny model of slay-push, a self-hosted push-notification service, with proofs about every run of it.

**The dispatch pipeline.** Notifications, recipient rows, device rows and the per-provider send queues form one
state machine (`Pipeline`). Its steps are the single statements of `CreateNotification`, `HandleFanout` and
`HandleSend`, the queue's done / retry / reschedule / archive decision, device changes, and worker crashes. Any
number of calls, runs and attempts interleave, statements fail, and a fanout run can stop anywhere and start
again. `Structure` holds the invariants of tables, queues and running handlers; `Lifecycle` proves the
invariants of one recipient on its own slice of the world; `Simulation` shows that every step of the whole
machine is, for each recipient, one move of that slice or nothing. `Guarantees`, `Outcomes`, `Budget`, `Audience`
and `Completion` draw the conclusions, `Payloads` says what queued tasks carry and what attempts do to devices,
`Reasons` that every error code and message id on a row goes back to an answer that gave it, `Resends` says
exactly when a second push can be accepted, and `Limits` shows reachable states that break the theorems where one
of their conditions is dropped. Each handler is also given as the imperative method it is in the source, proved to
end exactly where its statements run back to back; what that end is, answer by answer and column by column, is
stated outright.

**Device registration.** `DeviceTable` is one registration run alone, as a specification and as a handler over
mutable tables. `Registration` is any number of them overlapping: transactions with row locks and the advisory
lock, registrations outside a transaction, rollbacks anywhere, workers invalidating devices. `Serial` proves what
every run keeps, and that in runs whose registrations of devices name their users the committed tables are those
of the committed actions one at a time in commit order. `Isolation`, `Rotation` and `Targeting` draw conclusions,
`Reactivation` shows that the one kind of registration those runs leave out breaks them, and `DeviceChanges`
ties the two views of the device table together.

**Smaller cores.** `HmsTokens` (the access-token cache, whose lock is released during the request),
`PasswordHash` and `Base64Raw` (the argon2id hash string, printed and parsed), `SeqWriter` (the log batcher) and
`Runner` (the load tester's bounded runner and what it collects).

## How to read the theorems

The machines carry history that no handler reads. In the pipeline it is marks and counters on recipients:
`accepted` counts provider acceptances; `unacked` marks a recipient whose accepted push was not recorded,
`dropped` one whose failure write was lost or whose last attempt ended before an outcome was recorded, and
`disturbed` one with any send-side database error or crash. `Guarantees.UndisturbedRunMarksNothing` says when
all three are empty: no send-side statement fails and no worker crashes, whatever fails in create calls and
fanout runs. `OneQueue` says a recipient was never enqueued under two providers;
`Guarantees.StableProvidersMeanOneQueue` says when that holds. `OneAudience` says all fanout runs of a notification
fetched one device set; `Audience.NamedAudienceIsOne` says when that holds. `FailurePolicy` is the queue's
`IsFailure` setting: this service's own, or the library default it replaced. In the registration machine,
`GroupedRun` says that every registration naming a device_uuid also names an external_user_id.

Where the code falls short of what is said of it:

- Delivery is at most once while devices keep their provider and accepted pushes get recorded. Neither condition
  can go: with one queue, a further push can be accepted if and only if the first one's `sent` write was lost with
  a retry left (`Resends.AcceptedAgainIffLost`); and attempts alone, all of them recorded, can get two pushes
  accepted if and only if tasks wait in two queues (`Resends.TwoMoreIffTwoWaiting`). The comment on `EnqueueSend`
  calls re-enqueueing a recipient a no-op; that holds per queue, and the queue is chosen by the device's present
  provider (`Limits.TwoQueuesSendTwice`).
- The loser of an idempotency key is handed the winner's notification even if its fanout was never enqueued and
  never will be (`Limits.LostFanoutIsNotRetried`).
- The dashboard's completion test succeeds while `total_recipients` is still 0 (`Limits.DashboardIsEarly`), and,
  with one audience, is right exactly once a total is stored or all rows are terminal
  (`Outcomes.DashboardIsExactOnceTotalled`). If a later fanout run finds a larger audience, both tests succeed over
  rows that are not terminal and then fail again (`Limits.ChangedAudienceUndoesCompletion`).
- A registration that names a device but no user skips the lock, keeps the row's user and makes the row active
  again. For each such registration there is a run, all others naming their users, that leaves a user two active
  rows for one physical device and that is not serial in commit order; for every other registration there is none
  (`Reactivation.OneActiveIffGrouped`, `Reactivation.SerialIffGrouped`).
- `seqMaxBatchLines` is compared with a byte count (`SeqWriter.LimitCountsBytes`).
- `runConcurrent` with a concurrency of 0 never returns unless it has nothing to do (`Runner.NoRoomNeverReturns`).
- The comment on the registration lock says two registrations could each stale the other without it. Outside a
  transaction they can (`Rotation.UnserializedRotationLosesBoth`); inside one, every theorem here holds whether
  or not the advisory lock is taken, because the subscriber row is locked until commit.
- `toCLEF` depends on map iteration order if a line has both a zerolog field and its CLEF name
  (`SeqWriter.OneRenamingIffUnambiguous`).

## Model

| member | source | states |
|---|---|---|
| Guarantees.EndToEndAtMostOnce | internal/dispatch/send_handler.go:20-104 | over any run in which devices keep their provider and every acceptance gets recorded, the provider has accepted at most one push per (project, idempotency key, device), however creates, fanouts and attempts interleave and fail otherwise |
| Guarantees.AtMostOncePerKey | internal/dispatch/fanout_handler.go:70-91 | the same for any reachable state, from conditions on the recipients concerned only |
| Guarantees.StableProvidersMeanOneQueue | internal/dispatch/fanout_handler.go:77-87 | if no device changes provider, no recipient is ever enqueued in two queues |
| Guarantees.UndisturbedRunMarksNothing | internal/dispatch/send_handler.go:23-103 | send-side statements that all succeed, without crashes, leave no recipient marked, whatever fails in creates and fanouts |
| Guarantees.AudienceIsOne | internal/store/postgres/notifications.sql.go:28-33 | in a structured world a device has at most one recipient under one (project, key), over all notifications |
| Guarantees.AcceptedOnce | internal/dispatch/send_handler.go:75-80 | a recipient in one queue with no unrecorded acceptance has had at most one accepted push |
| Resends.AcceptedAgainIffLost | internal/dispatch/send_handler.go:75-80 | for every reachable state with one queue and a push just accepted: another push can be accepted later if and only if recording this one fails or crashes with a retry left |
| Resends.TwoMoreIffTwoWaiting | internal/dispatch/fanout_handler.go:77-87 | for every reachable state between runs and a row that is not terminal: attempts alone, each acceptance recorded, can get two more pushes accepted if and only if the recipient has tasks waiting in two queues |
| Traces.AttemptIsAccepted | internal/dispatch/send_handler.go:20-75 | from any state, a waiting task of a row that is not terminal can get a push accepted |
| Outcomes.NoSilentLoss | internal/queue/queue.go:110-120 | once a send task was enqueued, the row is terminal or some task will still serve it, in whatever queues, through any throttles and retried errors |
| Outcomes.AttemptAccounting | internal/store/postgres/recipients.sql.go:191-196 | between runs, attempt_count = counted retries + provider throttles + 1 if terminal; rate-limit denials do not appear |
| Outcomes.QueuedMeansUntried | internal/dispatch/send_handler.go:32-43 | a row is queued if and only if its attempt_count is 0 |
| Outcomes.ExhaustionAgrees | internal/dispatch/send_handler.go:97-103 | the row says transient_error_exhausted if and only if the queue archived the task for exhaustion; an error code means failed |
| Outcomes.RunsAreBounded | internal/queue/queue.go:79-83 | a task is run at most six times plus once per denied run, and exactly that often if it was archived for exhaustion |
| Budget.TaskRunsOut | internal/queue/queue.go:79-83 | a task's own steps are bounded by eleven for each of six runs plus one per denial, and until it is gone or archived it always has another one to take |
| Budget.OwnStepLowers | internal/dispatch/handlers.go:58-66 | every step of a task lowers the measure (denials left and retries left, then statements left) |
| Outcomes.OneRowPerDevice | internal/store/postgres/recipients.sql.go:96-101 | over any fanout runs, a notification never has two rows for a device, and the device keeps its recipient id |
| Outcomes.FinishedFanoutServesAll | internal/dispatch/fanout_handler.go:70-98 | after a fanout run that succeeded, and ever since, each fetched device has a row that is terminal or still served |
| Outcomes.ProjectIsolation | internal/store/postgres/devices.sql.go:35-37 | in every reachable state a recipient's device has its notification's project, whatever ids requests named |
| Outcomes.SameKeySameNotification | internal/dispatch/notifications.go:61-94 | successful creates with one (project, key) all return the same notification |
| Outcomes.NoKeyNoMerge | internal/store/postgres/notifications.sql.go:28-33 | creates without a key never share a notification |
| Outcomes.OneFanoutPerNotification | internal/dispatch/notifications.go:69-94 | at most one fanout task per notification; exactly one if the inserting call reported success |
| Outcomes.FanoutCountIsFinal | internal/dispatch/notifications.go:69-92 | once the inserting call has returned, no later call enqueues a fanout for the notification |
| Outcomes.TotalIsBacked | internal/dispatch/fanout_handler.go:93-97 | total_recipients never exceeds the number of recipient rows |
| Outcomes.CompletionIsExact | cmd/server/loadtest.go:213-220 | if all fanout runs fetched one device set, the completion test holds if and only if a total is stored and every row is terminal |
| Outcomes.CompletionIsFinal | cmd/server/loadtest.go:213-220 | a completion test that has succeeded keeps succeeding, while each recipient has one queue |
| Audience.NamedAudienceIsOne | internal/dispatch/fanout_handler.go:35-50 | if a notification names its devices and all are registered before its fanout, every fanout run of it fetches the same set, whatever is registered later |
| Audience.NamedCompletionIsExact | cmd/server/loadtest.go:213-220 | the completion test of such a notification is exact, without further conditions |
| Completion.PollIsExact | internal/transport/http/notifications.go:147-171 | with the total read first and the rows counted any number of steps later, and one audience, a poll succeeds if and only if the total was stored by the first and every row is terminal at the second |
| Completion.Poll | cmd/server/loadtest.go:206-220 | the poll's answer, computed from the grouped rows, is the comparison of that total with the terminal rows of those tables |
| Completion.NotificationIsDone | cmd/server/loadtest.go:213-220 | done if and only if the total is not 0 and the three terminal counts, absent ones as 0, reach it |
| Outcomes.DashboardIsExactOnceTotalled | internal/dashboard/templates/types.go:73-76 | if all fanout runs fetched one device set, the dashboard's test is right if and only if a total is stored or every row is terminal |
| Outcomes.CountsAddUp | internal/store/postgres/recipients.sql.go:14-16 | the sent, delivered and failed group counts add up to the number of terminal rows |
| Outcomes.TerminalIsFinal | internal/dispatch/handlers.go:40-45 | a terminal row never changes again while its recipient has one queue |
| Outcomes.ArchivedIsFinal | internal/queue/queue.go:79-83 | over any run in which devices keep their provider, a row whose task is archived never changes again |
| Outcomes.StaysSpent | internal/dispatch/send_handler.go:23-30 | with one queue, a recipient that is terminal or whose task is dead keeps its row and gets no further push accepted |
| Limits.CountedThrottlesLoseRecipients | docs/content/docs/load-testing.md:55-62 | if throttled runs counted as failures, a reachable state without any error has the task archived and the row queued, and it stays queued in every run in which devices keep their provider; the attempt equation and the agreement on exhaustion fail there too |
| Limits.FetchErrorsMiscount | internal/dispatch/send_handler.go:23-26 | database errors on every attempt break the attempt equation and the agreement on exhaustion |
| Limits.LostFailureWriteLosesRecipient | internal/dispatch/handlers.go:47-56 | a lost failure write leaves a row that is not terminal and that nothing will serve |
| Limits.TwoQueuesUndoCompletion | internal/dispatch/fanout_handler.go:77-87 | with two queues and one audience, a terminal row goes back to sending and a completion test that succeeded fails |
| Limits.ChangedAudienceUndoesCompletion | internal/dispatch/fanout_handler.go:93-98 | with two audiences and one queue each, the completion test succeeds over a queued row and then fails again |
| Limits.TwoQueuesSendTwice | internal/dispatch/fanout_handler.go:77-87 | a provider change between two fanout runs leads to two accepted pushes for one recipient, without any error |
| Limits.LostSentWriteSendsTwice | SECURITY.md:29-30 | a failed `sent` write alone leads to a second accepted push |
| Limits.LostFanoutIsNotRetried | internal/dispatch/notifications.go:69-92 | a later create with the key succeeds for a notification that was never fanned out, and no further run ever fans it out |
| Limits.DashboardIsEarly | internal/dashboard/templates/types.go:73-76 | the dashboard's test succeeds over a queued recipient before the fanout loop has ended; the load tester's does not |
| Lifecycle.StepIsLocal | internal/store/postgres/recipients.sql.go:174-222 | a statement of an attempt reads and changes no recipient row but its own |
| Lifecycle.MoveKeepsExclusive | internal/dispatch/send_handler.go:23-30 | with one queue, an attempt past its terminal check always faces a row that is not terminal |
| Lifecycle.MoveKeepsAtMostOnce | internal/dispatch/send_handler.go:75-80 | every move keeps: one acceptance at most, and then the row says sent or is about to |
| Lifecycle.MoveKeepsAccounted | internal/dispatch/send_handler.go:41-43 | every move keeps the attempt equation, counting a run under way |
| Lifecycle.MoveKeepsExhaustion | internal/dispatch/send_handler.go:97-103 | every move keeps the agreement of row and queue on exhaustion |
| Lifecycle.MoveKeepsNotLost | internal/queue/queue.go:117-120 | every move keeps a live recipient in circulation |
| Lifecycle.SpentStays | internal/dispatch/send_handler.go:97-103 | with one queue, every move leaves a spent recipient's row and acceptances alone |
| Simulation.StepIsMove | internal/dispatch/send_handler.go:20-104 | every pipeline step is, for each recipient, one possible move of its slice or no change |
| Simulation.RunSane | internal/dispatch/send_handler.go:20-104 | table structure and every recipient's invariants hold after any run |
| Structure.StepStructured | internal/dispatch/fanout_handler.go:17-99 | every step keeps the unique constraints, the project scoping, and what queued tasks and running fanouts may rely on |
| Structure.RunGrows | internal/store/postgres/recipients.sql.go:96-101 | rows keep their identity, keys and history only grow over any run |
| SendHandler.HandleSend | internal/dispatch/send_handler.go:20-104 | the handler's tables and returned error are those of its statements run back to back, for every failure pattern, with the last attempt decided by the two counts asynq gives; the six lemmas below say what these are |
| SendHandler.RecordResult | internal/dispatch/send_handler.go:75-103 | the same for the part from the provider call on |
| SendHandler.NothingIsTouched | internal/dispatch/send_handler.go:23-43 | no row or a failed fetch is an error, a terminal row ends well, a denial is a throttle, a failed `sending` write an error; tables unchanged in all four |
| SendHandler.SetupDecides | internal/dispatch/send_handler.go:45-66 | a missing credential, failed decryption or unknown adapter each fails the row under its own code, with no retry; only the row changes |
| SendHandler.SentDecides | internal/dispatch/send_handler.go:75-80 | an accepted push makes the row `sent` under the provider's id, or is an error with the row `sending` if that write fails; no device changes |
| SendHandler.InvalidTokenDecides | internal/dispatch/send_handler.go:82-89 | an invalid token fails the row as `invalid_token` without error to the queue, and makes the payload's device `invalid` |
| SendHandler.ThrottledDecides | internal/dispatch/send_handler.go:91-95 | a throttled push leaves the row `sending`, counts one attempt and is a throttle; no device changes |
| SendHandler.TransientDecides | internal/dispatch/send_handler.go:97-103 | any other answer is an error to retry with the row `sending`, or `transient_error_exhausted` on the last attempt; no device changes |
| Reasons.ErrorsHaveReasons | internal/dispatch/send_handler.go:45-103 | over every run, a row has an error code only if an attempt at it met the cause of that code: `invalid_token` only if the provider answered so, exhaustion only after a failure with the retries spent |
| Reasons.SentMeansAccepted | internal/dispatch/send_handler.go:75-80 | over every run, a row is `sent` only under a message id with which the provider accepted a push to it |
| Reasons.TransientIsRetried | internal/queue/queue.go:110-120 | a transient answer with a retry left changes no table, and the queue puts the task back with one retry more |
| Payloads.QueuedPayloads | internal/dispatch/fanout_handler.go:77-87 | in every reachable state each queued task names its recipient row's device and notification, that one's project, the device's token, and is in the queue of its provider |
| Payloads.AttemptsTouchOwnDevice | internal/dispatch/send_handler.go:82-89 | in every reachable state no step of an attempt changes a device other than its recipient's, and that one only to `invalid` |
| FanoutHandler.HandleFanout | internal/dispatch/fanout_handler.go:17-99 | any run follows the step machine and only adds rows and tasks, each new one given in full; without faults, no targets mark the notification failed, an empty audience completed, and otherwise the total is the number of devices wanted and all of them, no others, are served |
| FanoutHandler.ReachesAdds | internal/dispatch/fanout_handler.go:70-120 | over any steps of a run, new rows are queued, untried and for devices of the project under their provider; new tasks name that row, its device, project, provider and token |
| FanoutHandler.ServeAll | internal/dispatch/fanout_handler.go:70-91 | the loop serves every device or stops with a prefix served; `enqueued` counts all of them |
| FanoutHandler.FetchAudience | internal/dispatch/fanout_handler.go:20-53 | the part before the loop: its error exits, the empty audience, and else exactly the wanted devices of the project, once each |
| FanoutHandler.GetOrCreateRecipient | internal/dispatch/fanout_handler.go:101-120 | returns the one row of the pair, new or old, and keeps the pair constraint |
| FanoutHandler.ResolveTargets | internal/dispatch/fanout_handler.go:28-42 | explicit ids filtered by project, else the group's devices, else an error |
| CreateHandler.CreateNotification | internal/dispatch/notifications.go:47-95 | result, tables and enqueued fanouts are those of its statements run back to back |
| CreateHandler.NewIsStored | internal/dispatch/notifications.go:56-77 | a create whose key is free stores the request's own targets, key and project, and enqueues one fanout of that notification |
| CreateHandler.TakenIsFetched | internal/dispatch/notifications.go:78-94 | a create whose key is taken changes nothing and returns the notification stored under it |
| CreateHandler.NoTargetsRefused | internal/dispatch/notifications.go:47-55 | a create without targets is an error and changes nothing |
| CreateHandler.FailedInsert | internal/dispatch/notifications.go:61-80 | a create whose insert fails reports an error and enqueues nothing; the row is the request's or not there |
| Audience.StoredAsRequested | internal/dispatch/notifications.go:56-68 | in every reachable state a notification's stored targets are those of the request that its owner made |
| Audience.NamedDevicesAreServed | internal/dispatch/fanout_handler.go:35-98 | if a create names registered devices of its project, then after any successful fanout run of it each device it named has a recipient row and was given a send task |
| CreateHandler.RecipientStatusCounts | internal/dispatch/notifications.go:97-109 | the map gives every status the number of the notification's rows that have it, and holds no status without rows |
| Store.Database.QueryDevicesByIds | internal/store/postgres/devices.sql.go:35-73 | exactly the named devices of the project, once each, with their provider and token |
| Store.FetchRows | internal/store/postgres/devices.sql.go:49-72 | the loop over a result set returns each of its rows once, in whatever order |
| DeviceTable.MetadataKeepsUuid | internal/transport/http/devices.go:219-244 | the stored metadata names a device_uuid if and only if the request did, and the same one |
| DeviceTable.Server.UpsertBoth | internal/transport/http/devices.go:142-172 | both statements, or an error with at most the subscriber's upsert left behind |
| DeviceTable.Server.RegisterInTransaction | internal/transport/http/devices.go:174-217 | all of the registration, or nothing if any statement fails |
| DeviceTable.Server.HandleRegisterDevice | internal/transport/http/devices.go:127-139 | success means the registration's specification was done and the row at (project, token) is active with the request's provider, platform and metadata; a failed one leaves at most a subscriber, and only outside the transaction |
| DeviceTable.RowIsStored | internal/store/postgres/devices.sql.go:219-230 | after a registration the row is active with the request's provider, platform and metadata, the named user or else the old one, and the old id or else a fresh one |
| DeviceTable.OtherRowsStay | internal/store/postgres/devices.sql.go:163-172 | any other row stays as it is, but an active one of the same project, user and device_uuid goes stale |
| DeviceTable.UserIsStored | internal/store/postgres/subscribers.sql.go:61-67 | the named user is stored with its old id or else a fresh one, and no other user changes |
| DeviceTable.MetadataStores | internal/transport/http/devices.go:219-244 | each metadata key, with its literal name, is stored exactly when its field is given, with that value; no other key is |
| DeviceTable.InvalidationMarks | internal/store/postgres/devices.sql.go:149-151 | an invalidation changes the status of the row with the id, and nothing else |
| Serial.SerialEquivalence | internal/transport/http/devices.go:174-217 | if every registration naming a device names its user: however registrations, rollbacks and invalidations overlap, the committed tables are those of the committed actions one at a time in commit order, even when groups fight over one token |
| Serial.CommitIsRegistration | internal/store/postgres/devices.sql.go:163-172 | a transaction about to commit holds exactly the writes of its registration run alone on the tables as they are then |
| Serial.RunOk | internal/store/postgres/devices.sql.go:219-230 | in every run of any registrations: ids stay unique, locks exclusive, and each open transaction's writes those it would make on the committed tables of the moment |
| Serial.LockAdmitsOne | internal/transport/http/devices.go:174-192 | where the advisory lock is taken, at most one registration of a (project, user, device_uuid) is past it at any moment of any run |
| Reactivation.RegistersAlone | internal/transport/http/devices.go:127-217 | a registration alone is a run of the transaction machine that ends in the tables of its specification |
| Reactivation.SerialIffGrouped | internal/transport/http/devices.go:127-132 | for each registration: all runs whose other registrations name their users are serial in commit order if and only if it names a user or no device |
| Reactivation.OneActiveIffGrouped | internal/transport/http/devices.go:127-132 | the same for keeping at most one active row per physical device |
| Reactivation.OneBareRegistrationSuffices | internal/store/postgres/devices.sql.go:226-227 | for each registration of a device without a user, a run from empty tables in which it reactivates a rotated token, leaving two active rows, and tables other than those of the replay in commit order |
| Rotation.AtMostOneActive | internal/transport/http/devices.go:174-217 | at every moment of every run whose registrations naming a device name its user, a user's physical device has at most one active row |
| Rotation.RotationSurvivor | internal/transport/http/devices.go:174-217 | in such a run, the last committed registration of a device leaves its own token as the one active row until that row or device is touched again |
| Rotation.RegisteredIsSoleActive | internal/store/postgres/devices.sql.go:163-172 | after one registration, its row is the group's only active one |
| Rotation.UnserializedRotationLosesBoth | internal/transport/http/devices.go:174-180 | two registrations that both upsert before either marks the other stale, outside a transaction, leave no active row |
| Isolation.SubscriberIsolation | internal/store/postgres/devices.sql.go:219-230 | in every run of any registrations, whatever ids they name, a device's subscriber belongs to the device's project |
| Targeting.CollectIds | internal/targeting/targeting.go:89-93 | the ids of exactly the rows returned, without duplicates |
| Targeting.Resolve | internal/targeting/targeting.go:118-129 | an error if and only if nothing is named or the query fails; explicit ids win over groups and give those of the project; groups give the ids of exactly the active devices of the users stored under a name given and not opted out; no duplicates |
| Targeting.NamedIds | internal/store/postgres/devices.sql.go:35-37 | the rows of explicit ids are those with a named id in the project |
| Targeting.GroupIds | internal/store/postgres/subscribers.sql.go:14-21 | the rows of a group are exactly the active devices whose user is stored in the project under a name given and has not opted out |
| Targeting.GroupPushStaysInProject | internal/store/postgres/subscribers.sql.go:14-21 | after any run of any registrations a group push resolves to devices of its own project only |
| Targeting.GroupPushHitsEachDeviceOnce | internal/store/postgres/subscribers.sql.go:14-21 | after any run whose registrations naming a device name its user, a group push reaches each physical device of a user at most once |
| DeviceChanges.ActionIsDeviceChanges | internal/transport/http/devices.go:142-217 | whatever takes effect in the device table is, in any pipeline state with the same devices, a run of its device-change steps, keeping providers if no row changes its provider |
| DeviceChanges.RegistrationChangesProvider | internal/store/postgres/devices.sql.go:222-224 | a registration changes a provider if and only if it registers a known token under another one |
| HmsTokens.Adapter.AccessTokenFor | internal/provider/hms/hms.go:56-106 | a live entry is served and kept; else a granted token is returned and stored until its lifetime less 60 s; else nothing. The cache is that of the machine's enter, look, request, answer and store steps, and stays vouched for if the request took at most 60 s |
| HmsTokens.CallAloneIsRun | internal/provider/hms/hms.go:56-106 | those steps are a run of the machine from any state, and change only the credential's own entry |
| HmsTokens.ServedUntil | internal/provider/hms/hms.go:98-103 | a stored token is served at a time if and only if that is before its lifetime less 60 s is over |
| HmsTokens.Adapter.Classify | internal/provider/hms/hms.go:217-238 | each code's status: success, invalid token for two codes, else transient; only the two authorization codes evict |
| HmsTokens.ServedTokensAreGood | internal/provider/hms/hms.go:58-106 | with any number of concurrent callers, a token served from the cache was granted for the same credential and has not expired, if at most 60 s pass between request and store |
| HmsTokens.SixtySecondsAreExact | internal/provider/hms/hms.go:98-103 | over all runs of any callers: no token is ever served after it ran out if and only if requests take at most 60 s |
| HmsTokens.EvictedTokensStayOut | internal/provider/hms/hms.go:119-125 | after an eviction only tokens stored later are served |
| PasswordHash.ParseFormat | internal/auth/password.go:43-67 | parsing gives back the memory, time, threads, salt and digest printed, for all values the fields can hold |
| PasswordHash.VerifyHash | internal/auth/password.go:28-71 | a password verifies if and only if it has the stored digest, so its own always does, for every password and salt |
| PasswordHash.VerifyUsesStoredCosts | internal/auth/password.go:41-71 | for every stored costs, salt and digest, a password verifies against their string if and only if deriving it with those very costs and salt gives that digest |
| PasswordHash.HashString | internal/auth/password.go:28-39 | the hash string in full: its literal version and costs, the salt, and the digest of 32 bytes derived with them |
| PasswordHash.ParsedIsWellFormed | internal/auth/password.go:44-67 | any string that parses has six fields, `argon2id`, a version and costs the types can hold, and its last two fields decode to salt and digest |
| PasswordHash.TooLargeIsRefused | internal/auth/password.go:54-58 | a number its cost cannot hold is refused |
| PasswordHash.AnyVersionIsAccepted | internal/auth/password.go:49-52 | the version is read and then not compared: any number an `int` can hold is accepted |
| PasswordHash.SplitRejoins | internal/auth/password.go:44-47 | the fields of any string, joined by "$", are that string, and none contains "$" |
| PasswordHash.ScanCostOfCostField | internal/auth/password.go:54-58 | scanning the cost field gives back the three numbers printed |
| PasswordHash.SplitFormat | internal/auth/password.go:34-47 | splitting the hash string on "$" gives back its six fields |
| Base64Raw.DecodeEncode | internal/auth/password.go:60-67 | unpadded base64 (section 4 of RFC 4648) round-trips every byte sequence and contains no "$" |
| Base64Raw.CharsAreAlphabet | internal/auth/password.go:60-67 | the 64 values are the letters, digits, "+" and "/" in the order of table 1 of RFC 4648 |
| Base64Raw.GroupIsBigEndian | internal/auth/password.go:60-67 | three bytes become four values of the same 24-bit number |
| Base64Raw.TailIsUnpadded | internal/auth/password.go:60-67 | one or two last bytes become two or three values with zero bits at the end |
| Base64Raw.ForeignIsRefused | internal/auth/password.go:60-67 | decoding fails exactly on a character outside the alphabet that is no line break |
| Base64Raw.LengthsDecoded | internal/auth/password.go:60-67 | a length of one more than a multiple of four is refused; any other gives three bytes for four characters |
| SeqWriter.Writer.Append | internal/platform/seq_writer.go:45-49 | one whole line is added, and the writer is told whether the batch has reached the limit |
| SeqWriter.Writer.Take | internal/platform/seq_writer.go:66-76 | the payload is the whole batch, and the batch is empty; an empty batch gives no payload |
| SeqWriter.Writer.Write | internal/platform/seq_writer.go:38-54 | malformed lines are dropped but reported written; otherwise batch and payload together gain exactly the line |
| SeqWriter.BatchConservation | internal/platform/seq_writer.go:38-88 | under any interleaving, payloads in lock order and then the batch are all accepted lines, byte for byte, and each payload splits back into whole lines |
| SeqWriter.BatchIsBounded | internal/platform/seq_writer.go:47-54 | a batch of 200 bytes has a flush pending, and never outgrows 199 bytes by more than a line per pending writer |
| SeqWriter.LimitCountsBytes | internal/platform/seq_writer.go:22-25 | 67 lines always reach the limit, and a single line does if and only if it has 199 bytes |
| SeqWriter.ToClef | internal/platform/seq_writer.go:90-112 | the result is a renaming of the fields; if no two clash, `time`, `level` and `message` are under "@t", "@l" and "@m" and every other field under its own name; the old three names are gone |
| SeqWriter.RenamedFields | internal/platform/seq_writer.go:96-110 | the same of every renaming, whatever the map iteration order |
| SeqWriter.OneRenamingIffUnambiguous | internal/platform/seq_writer.go:96-110 | the result is independent of the map iteration order if and only if no two fields clash under one name |
| Runner.LatencyResult.Add | cmd/server/loadtest.go:253-264 | the successes' latencies, the number of errors and the first five of them, in lock order: an error is kept as a sample while fewer than five are, and a sample kept is never replaced |
| Runner.BoundedAndTerminating | cmd/server/loadtest.go:225-238 | under every interleaving at most `concurrency` calls are under way, none is made twice, and runs end within 8n + 1 steps; with room for one goroutine they stop nowhere before the return |
| Runner.EachIndexOnce | cmd/server/loadtest.go:225-238 | on return, fn has been called exactly once for each index below n and for no other |
| Runner.NoRoomNeverReturns | cmd/server/loadtest.go:225-238 | with concurrency 0 it returns only if n is 0 |
| Runner.RegisterDevicesAccounts | cmd/server/loadtest.go:88-108 | on return the ids are those of the successful registrations, once each; ids and errors add up to n; min(5, errors) samples |
| Runner.EveryCallIsCounted | cmd/server/loadtest.go:253-264 | every recorded call is one latency or one error |
| Runner.ErrorsAreInOrder | cmd/server/loadtest.go:253-264 | errors and latencies of calls recorded later come after those recorded earlier |

## Left out

- asynq, Redis, Postgres and pgx internals: the queue keeps a task id unique while its task is waiting, running or
  archived, frees it on completion, and gives a task at most one run at a time; archived tasks do not expire.
- The outbound limiter and the providers' answers are arbitrary; "accepted" means the adapter returned `StatusSent`.
- Send-side statements that fail have no effect; in create calls and fanout runs a failing write may have taken effect.
- Postgres deadlocks appear as the rollback of one transaction; hash collisions of advisory-lock keys are not distinguished from other waiting.
- `total_recipients` and `attempt_count` are unbounded, not `int32`; `time.Duration` overflow of an HMS lifetime is not modelled.
- Timestamps, error messages, and the title, body and data of a notification; data that does not parse counts as a failed device fetch.
- In the pipeline a group lookup yields an arbitrary id set, and device rows keep only project, token, provider and status; registration has its own, fuller device table (`DeviceChanges` relates the two). A row's project and token do not change: they are the key of the upsert.
- A notification's own status is not claimed to be final: errors the code calls not retryable are retried, and a later run may overwrite `failed`.
- `RetryDelayFunc` and backoff: when a task runs next does not matter to the theorems.
- argon2 is any function of fixed output length, and reports a panic for zero time or threads; the random salt is an input.
- Scanning knows Latin-1 white space only; strings stand for bytes.
- Envelope decryption succeeds or fails; SHA-256 keys are the credentials themselves.
- JSON decoding and encoding in `toCLEF`; a marshalled line is any text without a line feed. HTTP delivery of a payload is not part of the batcher's claims: a failed post loses the payload.
- `createNotifications`, `pollCompletion` and `percentile` of the load tester, and negative concurrency, which panics.
- HTTP routing and validation, the dashboard, configuration, CLI, migrations runner, health checks, other provider adapters.
- Serial.SerialEquivalence: does not cover runs in which a registration names a device and no user, because they are not serial in commit order (`Reactivation.SerialIffGrouped`); whether each is serial in some other order is not decided.
- Guarantees.AtMostOncePerKey: does not cover a notification without an idempotency key beyond its own recipients; `Guarantees.AcceptedOnce` does.
- Budget.TaskRunsOut: bounds the task's own steps; that the queue does schedule a waiting task again is its contract, not a theorem here.
- HmsTokens.ServedTokensAreGood: is about tokens served from the cache; one handed to its own requester is as fresh as the answer.
