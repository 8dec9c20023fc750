# Heartbeat notifier: a verified model

The notifier reads collector heartbeats from Kafka, keeps one state row per device in PostgreSQL, and
puts mails into a queue table: MISSING when a device falls silent, RECEIVING when it is heard again,
ALERT when it reports an abnormal status, RECOVERY when it reports UP after that. An SMTP worker drains
the queue. An API disables, enables, deletes and restores devices at any moment.

This project models that system as transition systems and as objects, and proves what holds over all
their runs. `dafny verify dfyconfig.toml` checks the whole project.

## How the model is built

- **Values.** `Heartbeats` holds the heartbeat and the dedupe key, `JobQueue` the job rows and the
  statements on them, `Tables` the three tables and what each transaction computes, `Settings` and
  `Backoff` the configuration and the retry delays, `Gate` the health fields and one health check.
- **Systems.** `Protocol` is the system over the tables: consumer, worker, management requests, crash and
  restart. A transaction is one step; claim, guard, SMTP answer, commit and failure of the worker are
  separate steps, so anything may come in between, in particular between leaving the guard by an exception
  and `mark_failed`. Commits may fail, applied or not. Beside the tables the state keeps history that no
  step reads: a monitoring epoch per device and job, the claims, recoveries and SMTP acceptances of a job,
  and the notes of what was accepted, heard and changed. `Feed` is the system on the Kafka side: brokers
  append and trim, partitions are reassigned, the loop polls, commits, checks and scans. `NotificationSystem`
  joins the two. `ReadCommitted` adds loads that wait for locks, and `Locks` is a system at the level of single
  lock requests.
- **Laws.** `TableInvariants`, `ProtocolInvariant`, `Delivery`, `Drain`, `Trace`, `Flags`, `Backing`,
  `Tombstones`, `ConsumerLaws`, `GateSoundness` and `GateProgress` prove what can never happen and what must
  have come before. `Reports`, `Completion`, `Management` and `Watching` prove what must happen: which
  notifications a heartbeat or a scan makes, which jobs are sent, what a request does, and when the gate opens.
  They are stated on the fields of the tables and on the history, so they also pin the functions of `Tables`.
- **Objects.** `Postgres`, `Sqlite`, `Worker`, `Api`, `KafkaClient`, `Notifier` and `ConsumerLoop` have the
  source's own form: classes whose methods update fields and loop over rows, positions and devices. Their
  contracts tie the new state to the functions above and to the fields. The mailer keeps every call made to it,
  so what the worker sends is part of its contracts. A worker call and an iteration of the consumer's loop
  are proved to be runs of the systems, whatever happens around them, so the laws hold of the objects.

Assumptions: one consumer and one worker; a crash ends both, and interrupted jobs are recovered before the
worker starts again (`heartbeat_mailer/runner.py:80-83`); a transaction sees and changes the rows it has
locked without interference (READ COMMITTED with row and advisory locks); the settings passed the checks made
when they are read (`heartbeat_mailer/config.py:168-192`). Clocks are reals, every reading is arbitrary, and a
transaction takes one wall-clock reading. MES answers, SMTP answers, broker failures, commit failures and the
order in which rows come back are arbitrary. A Kafka value is a heartbeat record or invalid.

## What was found

- Device ids with a colon make dedupe keys ambiguous. A MISSING of device `a:ALERT:WARN:x` has the key of an
  ALERT of device `a` with level WARN and code `x:MISSING`. While that ALERT is live, the MISSING is accepted,
  its flag is set, and no job stands behind it (`Backing.ClashLeavesAFlagUnbacked`).
  All flags are backed throughout a run exactly if no step of it commits such a clashing acceptance
  (`Backing.RunsBackFlagsUnlessClash`), and no run over ids without a colon does
  (`Backing.ColonFreeRunsAreBacked`).
- The catch-up gate has a blind spot under the reset policy `latest`, which is the default
  (`heartbeat_mailer/config.py:88-89`). For a partition with no position and no committed offset, the check
  takes the current end of the log for the position. A message that arrives between the assignment and the
  first check is then counted as read, and the gate opens over it
  (`GateSoundness.LatestOpensOverUnreadMessage`), although `README.md:118` of the repository promises that
  judging resumes only after everything up to the recorded watermarks was processed. The model follows the
  code. The gate keeps that promise in all runs of a configuration exactly if the policy is not `latest`
  (`GateSoundness.GateIsSoundUnlessLatest`). Under `latest` it does harm only where a check records new
  watermarks in the blind spot: every dropped target of a run was read exactly if no check does
  (`GateSoundness.RunsKeepThePromiseUnlessBlind`), and then an open gate is sound (`GateSoundness.GateIsSound`).
  `GateSoundness.BlindSpotIsExact` says for a partition at a check, in every reachable state, what the blind
  spot is.
- The load of the consumer's map locks the devices but not the state rows. If it waits for a device that is
  disabled and enabled again meanwhile, it works from a row whose flags were cleared since, and can store an
  alert flag over cancelled jobs (`ReadCommitted.RevivedRowLeavesAFlagUnbacked`). Every other run with waits is
  a run without them (`ReadCommitted.WaitingRunsAreRuns`).
- The cancel statement inside the delivery guard never changes a row (`Delivery.GuardNeverCancels`): a job
  of an inactive device has been cancelled already by the change that made the device inactive.

## Model

| member | source | states |
|---|---|---|
| Heartbeats.KeyBuildersAgree | heartbeat_mailer/storage.py:632-642 | The key built by the SQLite queue equals the key built by the PostgreSQL queue for every heartbeat and kind. |
| Heartbeats.KeysIdentifyIncidents | heartbeat_mailer/postgres.py:158-161 | For device ids without a colon, keys are equal exactly if device and kind are equal and, unless MISSING, level and code too, even when codes hold colons. |
| Heartbeats.ColonsMakeKeysClash | heartbeat_mailer/postgres.py:158-161 | With a colon in a device id, two different incidents can have one key. |
| JobQueue.FirstDue | heartbeat_mailer/postgres.py:183-185 | The claim picks the lowest id among the jobs that are PENDING or RETRY, whose time has come and whose row is not locked, and finds none exactly if there is none. |
| JobQueue.UniqueUnlessRevived | heartbeat_mailer/postgres.py:53-54 | Statements that keep identities and revive no ended job cannot break the partial unique index. |
| JobQueue.InsertKeepsUnique | heartbeat_mailer/postgres.py:165-171 | An insert that yields to conflicts keeps at most one live job per key. |
| TableInvariants.StatusAlertMarkedKeeps | heartbeat_mailer/postgres.py:173-178 | Setting the alert flag by itself never sets it for a device that is not monitored. |
| TableInvariants.ProcessedKeeps | heartbeat_mailer/runner.py:230-290 | A heartbeat's transaction keeps the tables sound, leaves existing devices and jobs as they were, and appends only fresh PENDING jobs. |
| TableInvariants.ScannedKeeps | heartbeat_mailer/runner.py:327-341 | A stale scan does so too, in any order of the devices. |
| TableInvariants.ServedKeeps | heartbeat_mailer/postgres.py:237-253 | A management request keeps the tables sound, revives no job and leaves an inactive device without live jobs and flags. |
| Backoff.DelaysNeverShrink | heartbeat_mailer/notification_worker.py:93-97 | Every scheduled delay lies between the initial and the maximal delay, and none is shorter than an earlier one. |
| Backoff.DoubledIsPower | heartbeat_mailer/notification_worker.py:94-95 | Doubling step by step is the initial delay times the power of two. |
| Backoff.SumBeforeCap | heartbeat_mailer/notification_worker.py:93-97 | Before the cap the delays sum to initial * 2^n - initial. |
| Backoff.SumAfterCap | heartbeat_mailer/notification_worker.py:93-97 | From the first capped delay on, each further one adds the maximum. |
| Protocol.ClaimStep | heartbeat_mailer/postgres.py:180-191 | A claim changes nothing in the tables but the status of jobs, to SENDING, and revives no ended job. |
| Protocol.GuardStep | heartbeat_mailer/postgres.py:193-206 | Entering the guard changes nothing in the tables but job rows, and revives no ended job. |
| Protocol.SentStep | heartbeat_mailer/postgres.py:208-212 | The same of recording a sent mail in the guard's transaction, also when the commit fails. |
| Protocol.FailureStep | heartbeat_mailer/notification_worker.py:90-103 | The same of recording a failure: a job cancelled meanwhile stays cancelled. |
| Protocol.RestartStep | heartbeat_mailer/postgres.py:92-96 | The same of recovery at startup. |
| ProtocolInvariant.StepKeeps | heartbeat_mailer/postgres.py:92-253 | Every step of every actor keeps the invariant: sound tables, claims accounted for, live jobs in their device's current epoch, a worker whose send is guarded. |
| ProtocolInvariant.Reachable | heartbeat_mailer/runner.py:154-170 | Hence every run from empty tables ends in a state with the invariant, whatever the interleaving. |
| ProtocolInvariant.GuardKeeps | heartbeat_mailer/postgres.py:200-205 | In any state with the invariant the guard's own cancel changes no table. |
| ProtocolInvariant.ScanMatchesTables | heartbeat_mailer/runner.py:327-341 | Walking the reloaded map does to the tables, and leaves in the map, exactly what reading the tables throughout does. |
| Delivery.SendIsGuarded | heartbeat_mailer/postgres.py:193-206 | From a passed guard to the end of its transaction, in every run: the advisory lock is held and requests for the device wait, the device is active, the job is SENDING and of the current epoch. |
| Delivery.OnlyTheGuardStartsSends | heartbeat_mailer/notification_worker.py:82-88 | A send starts only by a passed guard, for the job the worker claimed. |
| Delivery.NoChangeSinceQueued | heartbeat_mailer/postgres.py:237-253 | While a job is being sent, no step since it was queued was an effective change of its device, not even a disable followed by an enable. |
| Delivery.InactiveDevicesAreQuiet | heartbeat_mailer/postgres.py:246-252 | In every reachable state a disabled or deleted device has no live job and neither flag. |
| Delivery.GuardNeverCancels | heartbeat_mailer/postgres.py:203-205 | In every reachable state, entering the guard leaves the tables as they are. |
| Delivery.LiveKeysAreUnique | heartbeat_mailer/postgres.py:53-54 | Every reachable queue has at most one live job per dedupe key. |
| Delivery.TerminalIsFinal | heartbeat_mailer/postgres.py:208-220 | No continuation of a run takes a job out of SENT, DEAD or CANCELLED or changes what it is about. |
| Delivery.ClaimsAreAccountedFor | heartbeat_mailer/notification_worker.py:76-103 | Claims equal failed attempts plus recoveries for PENDING, RETRY and DEAD jobs and exceed them by at most one otherwise; attempts stay below the maximum and reach it exactly in DEAD; no job is claimed more than maximum plus recoveries times; a SENT job was accepted by SMTP. |
| Delivery.ClaimsBackOff | heartbeat_mailer/notification_worker.py:90-103 | Without recovery, a job's n-th claim comes at least the first n-1 delays after its first claim. |
| Completion.DueJobsAreSent | heartbeat_mailer/notification_worker.py:76-89 | In every state with the protocol's invariant and an idle worker, a call in which nothing goes wrong sends the first job that is PENDING or RETRY, due and not locked: it becomes SENT and nothing else in the tables moves. |
| Completion.RefusedJobsAreRescheduled | heartbeat_mailer/notification_worker.py:90-103 | There a call whose mail is refused leaves that job with one more attempt, DEAD exactly at the maximum, and due after exactly the initial delay times two to the earlier failures, or the maximal delay. |
| Completion.InterruptedJobsAreDueAgain | heartbeat_mailer/postgres.py:92-96 | From any state, a crash and a restart make exactly the SENDING jobs RETRY and due at once. |
| Completion.BacklogCanBeSent | heartbeat_mailer/notification_worker.py:67-130 | From every such state further calls send the whole backlog: exactly the jobs that were due become SENT, in as many calls as completed. |
| Completion.NewAlertIsSent | heartbeat_mailer/runner.py:254-272 | From empty tables: start, a new abnormal heartbeat that MES agrees to, and one call leave its ALERT SENT, for every heartbeat. |
| Drain.OnlyEnqueuesRaiseTheMeasure | heartbeat_mailer/postgres.py:180-220 | Attempts left over all live jobs: an enqueue adds the maximum per new job, no other step raises the sum. |
| Drain.CompletedCallsAreBounded | heartbeat_mailer/notification_worker.py:67-130 | In any window of any run, calls that returned True are paid for by the fall of the measure and by what was queued; without enqueues only so many occur. |
| Drain.TrueCallsLowerTheMeasure | heartbeat_mailer/notification_worker.py:67-130 | A call that returned True leaves the measure strictly lower than at its start plus what was queued meanwhile, under any interleaved management. |
| Trace.RecoveryFollowsAlert | heartbeat_mailer/runner.py:254-268 | In a lawful history a RECOVERY follows an ALERT of the device with only heartbeats of that ALERT's signature in between. |
| Trace.MissingIsNotRepeated | heartbeat_mailer/runner.py:328-341 | In a lawful history two MISSING of a device are separated by a heartbeat or a change of settings. |
| Trace.OpeningsCoverClosings | heartbeat_mailer/runner.py:245-290 | In a lawful history MISSING covers RECEIVING and ALERT covers RECOVERY, with one to spare while the incident is open. |
| Flags.BeatStates | heartbeat_mailer/runner.py:274-290 | A heartbeat's transaction stores the heartbeat with its reception time, not stale, and with the alert flag its ALERT decided, and touches no row of a deleted device. |
| Flags.FlagsFollowTheHistory | heartbeat_mailer/runner.py:243-290 | In every reachable state the two flags of every device are exactly what its history has open, and the history is lawful. |
| Flags.NotificationsAreBalanced | heartbeat_mailer/runner.py:245-290 | On every prefix of every run, per device: accepted MISSING >= RECEIVING plus one if stale, accepted ALERT >= RECOVERY plus one if the alert flag is set. |
| Flags.RecoveriesFollowAlerts | heartbeat_mailer/runner.py:261-268 | Every accepted RECOVERY of every run follows an accepted ALERT for the stored signature, with no UP heartbeat, other signature or change of settings in between. |
| Flags.MissingOncePerSilence | heartbeat_mailer/runner.py:327-341 | Between two processed heartbeats with no management change at most one MISSING is accepted. |
| Backing.AcceptedIsBackedUnlessClash | heartbeat_mailer/runner.py:377-387 | After an accepted notification its incident has a job that was not cancelled, inserted or found, exactly unless there was none and the key is held by another incident. |
| Backing.ClashLeavesAFlagUnbacked | heartbeat_mailer/postgres.py:158-171 | A run from empty tables, two heartbeats and a stale scan, in which a MISSING is accepted and flagged with no job behind it. |
| Backing.BeatBacksUnlessClash | heartbeat_mailer/runner.py:254-290 | From sound tables with all flags backed, a heartbeat's transaction leaves them backed exactly unless its ALERT is accepted without a job of its incident while the key is held by another. |
| Backing.WalkBacksUnlessClash | heartbeat_mailer/runner.py:327-341 | A stale scan does so exactly unless that happens to the MISSING of a device of the walk. |
| Backing.RunsBackFlagsUnlessClash | heartbeat_mailer/runner.py:243-341 | In every run: all flags are backed in all its states exactly if no step of it commits such a clashing acceptance. |
| Backing.FlagsAreBacked | heartbeat_mailer/runner.py:336-341 | In every run without a clashing acceptance, stale implies a MISSING job of the device that was not cancelled, and alert implies a level other than UP and such an ALERT job with exactly the stored signature. |
| Backing.ColonFreeRunsAreBacked | heartbeat_mailer/postgres.py:158-161 | Every run over device ids without a colon is one without a clashing acceptance. |
| Backing.WorkerCancelsNothing | heartbeat_mailer/postgres.py:180-220 | No step of the worker, and no recovery, cancels a job. |
| Reports.HeartbeatsAreReported | heartbeat_mailer/runner.py:230-290 | In every reachable state a committed heartbeat leaves exactly the tables, and adds exactly the notes, that the fields at its start call for: device registered, row replaced unless deleted, alert flag exactly while an abnormal state is alerted, one due job per accepted notification unless its key is taken; each accepted one has a job with its key. |
| Reports.NotesOfAHeartbeat | heartbeat_mailer/runner.py:243-272 | Condition by condition: RECEIVING exactly if the stored row is stale, ALERT exactly if the level is not UP and the state is not alerted already, RECOVERY exactly if the level is UP and the stored row has alert set, each exactly if the device is monitored and MES agrees. |
| Reports.BeatTables | heartbeat_mailer/runner.py:201-290 | The stages of a heartbeat's transaction, each on the tables the last one left, together equal one outcome read off the tables at the start. |
| Reports.ScanMeetsItsDuties | heartbeat_mailer/runner.py:327-341 | So do the steps of a stale scan, over any walk without repetition: each check is as if it were the first. |
| Reports.SilenceIsReported | heartbeat_mailer/runner.py:327-341 | In every reachable state a committed scan over the loaded devices leaves a device stale exactly if it was, or is enabled and not deleted, silent for the threshold and MES agrees; exactly those newly stale get a MISSING, one each, and a job with its key. |
| Reports.ScansDoNothingElse | heartbeat_mailer/runner.py:302-341 | The whole state after a committed scan, read off the tables at its start. |
| Tombstones.TombstoneHolds | heartbeat_mailer/postgres.py:131-148 | From a delete to the device's next restore nothing changes its stored heartbeat or last-seen time, queues anything for it or makes it active. |
| Tombstones.NeverDeletedAndEnabled | heartbeat_mailer/api.py:106-140 | No reachable device is both deleted and enabled. |
| Tombstones.EnabledExplicitly | heartbeat_mailer/api.py:106-117 | An inactive device becomes active only by an enable request made while it is not deleted. |
| Tombstones.RestoredThenEnabled | heartbeat_mailer/api.py:129-140 | A deleted device that is active later was restored and, after that, explicitly enabled. |
| Management.ServedFulfils | heartbeat_mailer/api.py:106-140 | Reply and tables of every request on the fields: not found, conflict or done exactly as the device's row says, the new settings and reason, live jobs CANCELLED and flags off exactly if enabled or deleted changed. |
| Management.RequestsAreCarriedOut | heartbeat_mailer/postgres.py:237-253 | A request waits exactly while a mail to its device is being sent, and is otherwise carried out in full. |
| Management.DeletedCanBeMonitoredAgain | heartbeat_mailer/api.py:106-140 | In every reachable state, whatever is being sent, a restore and an enable request leave a deleted device monitored, with nothing else in the tables moved. |
| ConsumerLaws.BeatFramesOthers | heartbeat_mailer/runner.py:201-290 | Processing a heartbeat leaves every other device's settings, state and jobs as they were. |
| ConsumerLaws.RedeliveryQueues | heartbeat_mailer/runner.py:179-183 | Processing the same heartbeat again queues an ALERT exactly if it is abnormal, its ALERT was refused the first time and is accepted now and no live job has its key; otherwise the queue is unchanged. |
| ConsumerLaws.RedeliveryKeepsFlags | heartbeat_mailer/runner.py:245-290 | Redelivery leaves both flags as they were, exactly unless an ALERT that was refused the first time is accepted now. |
| ConsumerLaws.MapFollowsTheTables | heartbeat_mailer/runner.py:279-291 | After a committed heartbeat the map is what the tables would load, exactly unless the device is deleted. |
| ConsumerLaws.ConsumerReadsTheTables | heartbeat_mailer/runner.py:230-291 | In every reachable state, what the consumer commits is what one reading only the tables inside the transaction would. |
| ConsumerLaws.OldRowHarmsOnlyIfMonitoredAgain | heartbeat_mailer/postgres.py:114-129 | A state row that was read before a change of its device cleared the flags has the effect of the stored one, for every next heartbeat, exactly unless the device is monitored again and the old row has a flag set. |
| ReadCommitted.WaitingRunsAreRuns | heartbeat_mailer/postgres.py:114-129 | Every run in which loads wait while others act, and then pair the devices of after the wait with the state rows of before it, is a run of the protocol with the same heartbeats, unless a heartbeat is of a device that had a flag set, was changed within the wait and is monitored after it. |
| ReadCommitted.WaitingRunsKeepTheLaws | heartbeat_mailer/runner.py:190-199 | So in such runs too the invariant holds, the flags are what the lawful history has open and, for ids without a colon, every flag is backed. |
| ReadCommitted.WaitingWalk | heartbeat_mailer/runner.py:308-341 | A stale check over rows read before the wait is always the check of the stored rows for some of the devices: an old flag only puts a device off to the next check. |
| ReadCommitted.RevivedRowLeavesAFlagUnbacked | heartbeat_mailer/postgres.py:114-129 | A run in which a device is disabled and enabled within a wait, after which its alert flag is set over a cancelled job. |
| Feed.NextOffset | heartbeat_mailer/runner.py:157-163 | A poll returns the first message at or after the position. |
| Feed.CommitNeverRunsAhead | heartbeat_mailer/runner.py:179-183 | In every reachable state, with crashes and failed commits anywhere, every message between the start offset and the committed offset was handled. |
| Gate.ViewFound | heartbeat_mailer/runner.py:444-509 | A check finds a view exactly if every position has its watermarks and a position, a committed offset or a reset policy to stand on. |
| Gate.ViewOnFields | heartbeat_mailer/runner.py:470-510 | Per partition it takes the high watermark and the position, else the committed offset, else the end or the start of the log. |
| Watching.AssignmentStartsReading | heartbeat_mailer/runner.py:142-149 | After an assignment exactly the assigned partitions are read, each from its committed offset or else where the policy says, and health, targets and the last check are forgotten. |
| Watching.DueChecksRun | heartbeat_mailer/runner.py:421-541 | A check that is due runs, and succeeds exactly if the brokers answer and all partitions, at least one, can be placed; one that is not due changes nothing. |
| Watching.ReassignmentBringsACheck | heartbeat_mailer/runner.py:408-428 | After a reassignment the next check runs, however recent the last one was. |
| Watching.FatalErrorsCloseTheGate | heartbeat_mailer/runner.py:157-166 | A fatal poll error drops health and targets; any other error changes nothing. |
| GateSoundness.SnapshotIsFirstCheck | heartbeat_mailer/runner.py:516-533 | The recorded watermarks are those of the first check that passed after the last unhealthy mark, reassignment, expiry or change of the partition set. |
| GateSoundness.FieldsTrackEpochs | heartbeat_mailer/runner.py:516-522 | The notifier's fields start a new snapshot exactly when the history of checks says so. |
| GateSoundness.GateIsSound | heartbeat_mailer/runner.py:389-406 | Over every run in which no check records new watermarks in the blind spot: while the gate is open, every message of every assigned partition before the recorded watermark, from the start offset on, was handled. |
| GateSoundness.RunsKeepThePromiseUnlessBlind | heartbeat_mailer/runner.py:515-539 | Throughout a run, every target that was dropped was read up to its recorded watermark, exactly if no check of the run records new watermarks in the blind spot. |
| GateSoundness.GateIsSoundUnlessLatest | heartbeat_mailer/runner.py:486-498 | In all runs of a configuration the gate is open only over what was read, exactly if the reset policy is not latest. |
| GateSoundness.OtherPoliciesAreSighted | heartbeat_mailer/runner.py:487-498 | Under any policy but latest no check of any run records in the blind spot. |
| GateSoundness.BlindSpotIsExact | heartbeat_mailer/runner.py:481-509 | In every reachable state, a check counts a partition as caught up over an unhandled message exactly if the partition is in the blind spot. |
| GateSoundness.LatestOpensOverUnreadMessage | heartbeat_mailer/runner.py:490-491 | A run under latest after which the gate is open over a message that was never read. |
| GateProgress.TargetsOnlyShrink | heartbeat_mailer/runner.py:529-539 | In every reachable state, under every policy, no step within the epoch changes the snapshot or a live target's value; targets are only dropped. |
| GateProgress.EpochOnlyProgresses | heartbeat_mailer/runner.py:515-541 | Over any stretch of any run within one epoch what is outstanding over the live targets never grows, however much the brokers append. |
| GateProgress.ReadingProgresses | heartbeat_mailer/runner.py:536-539 | In every reachable state, reading a message of a partition that is behind its target leaves strictly less outstanding. |
| GateProgress.CheckOpensWhenCaughtUp | heartbeat_mailer/runner.py:535-541 | In every reachable state, a check that passes within the epoch opens the gate exactly if nothing is outstanding. |
| GateProgress.PassOpensWhenNothingIsLeft | heartbeat_mailer/runner.py:529-541 | The gate is open after any passing check, also one that records new watermarks, exactly if it left nothing outstanding. |
| Watching.AllReadOpensTheGate | heartbeat_mailer/runner.py:515-541 | In every reachable state in which every assigned partition is read to its end, a due check that reaches the brokers opens the gate, under every policy. |
| NotificationSystem.MissingMeansSilent | heartbeat_mailer/runner.py:316-341 | In every run of both halves, under every policy, a MISSING is accepted only through an open gate, for a monitored device whose last processed heartbeat is at least the threshold old. |
| NotificationSystem.MissingMeansCaughtUp | heartbeat_mailer/runner.py:316-341 | In every run of both halves in which no check records in the blind spot, a MISSING is accepted only with every assigned partition read up to its recorded watermark. |
| NotificationSystem.OtherPoliciesAreSightedHere | heartbeat_mailer/runner.py:486-498 | Under any policy but latest no check of any run of the joint system records in the blind spot. |
| NotificationSystem.OnlyScansAcceptMissing | heartbeat_mailer/runner.py:302-338 | No move but a scan through an open gate accepts a MISSING. |
| NotificationSystem.HandledWithItsTransaction | heartbeat_mailer/runner.py:179-221 | A message becomes handled only together with its committed transaction, or as invalid. |
| NotificationSystem.HalvesRun | heartbeat_mailer/runner.py:154-170 | Every run of the joint system is a run of the tables' side and of the Kafka side. |
| NotificationSystem.SystemIsSafe | heartbeat_mailer/runner.py:154-183 | In every reachable state of the joint system commits do not run ahead and a running send is guarded. |
| Watching.MessagesAreProcessed | heartbeat_mailer/runner.py:157-183 | In every reachable state of the joint system, polling a readable partition processes its next message, reports a heartbeat in full, moves the position past it and goes on to commit. |
| Watching.OffsetsAreCommitted | heartbeat_mailer/runner.py:183 | The commit records the offset after the message unless it failed before it was applied; an exception makes Kafka unhealthy and ends the iteration. |
| Watching.OpenGateReportsSilence | heartbeat_mailer/runner.py:302-341 | In every reachable state of the joint system a scan reports exactly the silent devices if Kafka is healthy, its last success fresh and no target left, and otherwise does nothing. |
| Watching.ReadLoopReportsSilence | heartbeat_mailer/runner.py:154-170 | From every reachable state in which all is read, one quiet iteration of the loop, its check due and answered and its scan soon after, reports exactly the silent devices. |
| Watching.BusyMoves | heartbeat_mailer/runner.py:155-170 | An iteration with a message processes and commits it, then checks, then scans. |
| Watching.HappeningsTakeEffect | heartbeat_mailer/runner.py:142-157 | Before a poll returns, assignments and requests take effect one after the other. |
| Watching.ErrorMoves | heartbeat_mailer/runner.py:160-166 | An iteration with an error, polled or raised by the commit, ends there. |
| Locks.NoDeadlock | heartbeat_mailer/postgres.py:98-118 | With one consumer, one worker and any number of requests, in every reachable state no chain of waits over advisory locks, device, job and state rows, dedupe keys and the queues for them leads back to its start. |
| Locks.SomeHolderIsFree | heartbeat_mailer/postgres.py:156-206 | Following who holds what, every wait ends after at most four holders at an actor nobody blocks. |
| Locks.NextKeeps | heartbeat_mailer/postgres.py:237-252 | Every lock request, grant and end keeps mutual exclusion and the lock order of each kind of transaction. |
| Locks.AdvisoryLockComesFirst | heartbeat_mailer/postgres.py:240-250 | Had a request locked its jobs before the advisory lock, nine acts would lead from nothing locked to it and the guard waiting for each other. |
| Locks.TransactionsGetTheirLocks | heartbeat_mailer/postgres.py:98-253 | Where nothing is locked, each kind of transaction gets all the locks its statements take, in their order, and holds them. |
| Locks.ClaimGetsItsRow | heartbeat_mailer/postgres.py:180-191 | So does the claim, of any job. |
| Locks.EndReleases | heartbeat_mailer/postgres.py:73-84 | The end of a transaction gives up all its locks and its wait. |
| Postgres.PostgresRepository.Begin | heartbeat_mailer/postgres.py:73-79 | A nested transaction joins the open one; an outermost one remembers the tables. |
| Postgres.PostgresRepository.Commit | heartbeat_mailer/postgres.py:79-84 | Only the outermost block commits and gives up the advisory locks; a commit may raise and then was applied or undid everything since the beginning. |
| Postgres.PostgresRepository.LockManagement | heartbeat_mailer/postgres.py:98-103 | Inside a transaction the device's lock is held from here on beside those held before; outside it the call is refused and takes no lock. |
| Postgres.PostgresRepository.RecoverJobs | heartbeat_mailer/postgres.py:92-96 | Every SENDING job becomes due for retry and nothing else changes. |
| Postgres.PostgresRepository.MonitoringAllowed | heartbeat_mailer/postgres.py:105-112 | Registers an unknown device and answers whether the device is enabled and not deleted. |
| Postgres.PostgresRepository.LoadAll | heartbeat_mailer/postgres.py:114-129 | Returns the state rows of registered, not deleted devices, each exactly once. |
| Postgres.PostgresRepository.Save | heartbeat_mailer/postgres.py:131-148 | Replaces the device's row unless it is deleted, with flags only while it is monitored. |
| Postgres.PostgresRepository.MarkStale | heartbeat_mailer/postgres.py:150-154 | Sets the stale flag of a monitored device. |
| Postgres.PostgresRepository.MarkStatusAlert | heartbeat_mailer/postgres.py:173-178 | Sets or clears the alert flag, cleared while the device is not monitored. |
| Postgres.PostgresRepository.Enqueue | heartbeat_mailer/postgres.py:156-171 | Appends a PENDING job exactly if the device is monitored and no live job has the key, and says whether it did. |
| Postgres.PostgresRepository.ClaimNext | heartbeat_mailer/postgres.py:180-191 | Claims the lowest row that is PENDING or RETRY, due and not locked, and returns it, or nothing exactly if there is none; a commit that fails may leave the claim behind. |
| Postgres.PostgresRepository.EnterGuard | heartbeat_mailer/postgres.py:193-206 | Allows the send exactly if the device is enabled and not deleted and the job SENDING, and otherwise cancels a SENDING job; the transaction stays open and holds the device's advisory lock. |
| Postgres.PostgresRepository.MarkSent | heartbeat_mailer/postgres.py:208-212 | Only a SENDING job becomes SENT. |
| Postgres.PostgresRepository.MarkFailed | heartbeat_mailer/postgres.py:214-220 | Only a SENDING job becomes RETRY or DEAD, with one more attempt and the given time. |
| Postgres.PostgresRepository.Manage | heartbeat_mailer/postgres.py:237-253 | Unknown devices are reported and change nothing; otherwise the row is the given one, an effective change cancels the device's live jobs and clears its flags, and a changed reason alone does neither. |
| Sqlite.StatementsKeep | heartbeat_mailer/storage.py:456-618 | Any sequence of the SQLite queue's statements keeps one live job per key and takes no job out of SENT, DEAD or CANCELLED. |
| Sqlite.SQLiteNotificationQueueRepository.constructor | heartbeat_mailer/storage.py:391-473 | Opening the queue recovers interrupted jobs. |
| Sqlite.SQLiteNotificationQueueRepository.Enqueue | heartbeat_mailer/storage.py:475-517 | The same insert as the PostgreSQL queue's, with its own key builder. |
| Sqlite.SQLiteNotificationQueueRepository.ClaimNext | heartbeat_mailer/storage.py:519-565 | Claims the lowest job that is PENDING or RETRY and due, or nothing exactly if there is none. |
| Sqlite.SQLiteNotificationQueueRepository.MarkSent | heartbeat_mailer/storage.py:567-584 | Only a SENDING job becomes SENT. |
| Sqlite.SQLiteNotificationQueueRepository.MarkFailed | heartbeat_mailer/storage.py:586-618 | Only a SENDING job becomes RETRY or DEAD. |
| Api.ManagementApi.Monitoring | heartbeat_mailer/api.py:106-117 | Not found exactly if unknown, conflict exactly if deleted; done, the device has the given setting and reason and is not deleted, its live jobs are cancelled and its flags off if the setting changed; refused, nothing changes. |
| Api.ManagementApi.Delete | heartbeat_mailer/api.py:119-127 | Not found exactly if unknown; otherwise the device is deleted and disabled with the given reason, with nothing live and no flag left if that is a change. |
| Api.ManagementApi.Restore | heartbeat_mailer/api.py:129-140 | Not found exactly if unknown, conflict exactly if not deleted; done, the device is neither deleted nor enabled. |
| Worker.MailNotificationWorker.Deliver | heartbeat_mailer/notification_worker.py:80-89 | One mail goes out, with the row's id, heartbeat and kind, exactly if the guard is entered, the device is enabled and not deleted and the job SENDING; the block fails on a lost connection, a refusal or a failed commit, and otherwise the job is SENT. The SMTP call is made only with the lock held. |
| Worker.MailNotificationWorker.Postpone | heartbeat_mailer/notification_worker.py:90-103 | A SENDING job becomes RETRY, or DEAD from the maximal attempt on, with one more attempt and the next one after the doubled delay up to its maximum. |
| Worker.MailNotificationWorker.ProcessOnce | heartbeat_mailer/notification_worker.py:67-130 | A call, with requests served in its gaps and any outcome of its transactions, is a run of the protocol; it returns True exactly when that run completes a call and finds nothing exactly when no job is due. It makes exactly one mail if it claims a job and its guard lets it through, and no other; a job is SENT by it only with an accepted mail of its own. |
| Worker.MailNotificationWorker.RunLoop | heartbeat_mailer/notification_worker.py:142-151 | The polling loop is the run of all its calls, and counts those that returned True. Every job it made SENT has an accepted mail among those it sent, and the history's acceptances of each job are exactly its accepted mails. |
| Worker.CallRuns | heartbeat_mailer/notification_worker.py:76-103 | What the run of a call with a job does to the tables, computed stage by stage from the tables at its start. |
| Worker.CallAccepts | heartbeat_mailer/notification_worker.py:82-89 | The acceptances that the protocol's history counts in a call's run are exactly the mails it made that were accepted. |
| Worker.SmtpMailer.SendHeartbeat | heartbeat_mailer/mailer.py:28-39 | Every call made to the mailer is kept, with the row it is for. |
| KafkaClient.SurveyMatchesFeed | heartbeat_mailer/runner.py:444-509 | From the client's answers, in any order of the assignment, a check computes exactly the watermarks and effective offsets of the feed. |
| KafkaClient.KafkaConsumer.Ask | heartbeat_mailer/runner.py:444-480 | The answers list every assigned partition with its position, commit and watermarks. |
| Notifier.HeartbeatNotifier.ReloadManagedStates | heartbeat_mailer/runner.py:190-199 | The map becomes the rows of the registered, not deleted devices, each once. |
| Notifier.HeartbeatNotifier.EnqueueIfEquipmentActive | heartbeat_mailer/runner.py:348-387 | True exactly if the device is monitored and MES agrees, also when the key was taken and no row was added. |
| Notifier.HeartbeatNotifier.Notification | heartbeat_mailer/runner.py:254-268 | ALERT exactly for an abnormal report that is new, differs from the stored one or was not alerted; RECOVERY exactly for an UP after an alerted abnormal state; nothing else. |
| Notifier.HeartbeatNotifier.ProcessState | heartbeat_mailer/runner.py:201-291 | Notifications, stored row and map after a message; an invalid one changes nothing. |
| Notifier.HeartbeatNotifier.Process | heartbeat_mailer/runner.py:179-183 | The committed tables are those of one reading only the tables, spelled out row by row in `Reports.BeatOutcome`; a failed commit leaves them as they were or complete. |
| Notifier.HeartbeatNotifier.StaleBlockReason | heartbeat_mailer/runner.py:389-406 | No reason exactly if the gate is open, and the first failing condition as the reason. |
| Notifier.HeartbeatNotifier.NotifyStaleStates | heartbeat_mailer/runner.py:308-341 | The walk over the map, device by device, while the gate is open, and nothing otherwise. |
| Notifier.HeartbeatNotifier.NotifyStaleDevices | heartbeat_mailer/runner.py:302-306 | With Kafka healthy, the last success fresh and no targets left, the scan does to the tables what `Reports.ScanOutcome` spells out, over all loaded devices; otherwise nothing. |
| Notifier.HeartbeatNotifier.OnAssignmentChange | heartbeat_mailer/runner.py:408-411 | Health and targets are dropped and the last check is forgotten. |
| Notifier.HeartbeatNotifier.MarkKafkaUnhealthy | heartbeat_mailer/runner.py:543-555 | Health and targets are dropped. |
| Notifier.HeartbeatNotifier.Resolve | heartbeat_mailer/runner.py:470-509 | The loop over the positions yields the highs and effective offsets of all of them, or fails with the first that cannot be resolved. |
| Notifier.HeartbeatNotifier.RefreshKafkaHealth | heartbeat_mailer/runner.py:413-541 | A check runs exactly if forced or due; it succeeds exactly with a view, then records the time and the partitions and keeps exactly the targets, fresh or from before, that the offsets have not reached; a failed one drops health and targets. |
| ConsumerLoop.NotifierProcess.constructor | heartbeat_mailer/runner.py:79-114 | Starting recovers interrupted jobs, loads the stored states and leaves the gate unchecked. |
| ConsumerLoop.NotifierProcess.PollAndProcess | heartbeat_mailer/runner.py:157-163 | A polled record is processed in one transaction, as the system's consuming move. |
| ConsumerLoop.NotifierProcess.CommitOffset | heartbeat_mailer/runner.py:183 | The offset is committed after the transaction; an exception marks Kafka unhealthy and ends the iteration. |
| ConsumerLoop.NotifierProcess.Check | heartbeat_mailer/runner.py:168 | The check of the objects is the check of the system. |
| ConsumerLoop.NotifierProcess.Scan | heartbeat_mailer/runner.py:170 | So is the scan. |
| ConsumerLoop.NotifierProcess.Iterate | heartbeat_mailer/runner.py:155-170 | One iteration, with reassignments, broker traffic and requests before its poll returns, takes the objects where its moves take the system. |
| ConsumerLoop.NotifierProcess.RunLoop | heartbeat_mailer/runner.py:154-170 | The loop takes the objects where all its iterations take the system. |
| ConsumerLoop.LoopIsARun | heartbeat_mailer/runner.py:154-170 | The loop is a run of the notification system. |
| ConsumerLoop.FreshLoopIsARun | heartbeat_mailer/runner.py:79-170 | From the first start of the process on, the loop is a run of the system from empty tables. |

## Left out

- FlagsAreBacked: stated for runs without a clashing acceptance, because it is false in all others (`RunsBackFlagsUnlessClash`).
- GateIsSound: stated for runs in which no check records new watermarks in the blind spot; in every other run some dropped target was not read (`RunsKeepThePromiseUnlessBlind`).
- MissingMeansCaughtUp: the same restriction as `GateIsSound`; under any other policy every run meets it.
- Properties the code does not have: a RECOVERY for every ALERT, mail sent exactly once, mail sent in queue order.
- A load that waits for device rows is modelled in `ReadCommitted`, over the tables' side; `Protocol` and the joint system read devices and state rows as of the lock. `RunsBackFlagsUnlessClash`, `FlagsAreBacked`, `FlagsFollowTheHistory`, `NotificationsAreBalanced`, `RecoveriesFollowAlerts` and `MissingOncePerSilence` carry over to runs with waits under the condition of `WaitingRunsAreRuns`; outside it `RevivedRowLeavesAFlagUnbacked` shows a flag without its job.
- Recovery at startup is not part of the deadlock property: it locks many job rows in no stated order.
- A wait ends by a grant or by the end of its session; lock and statement timeouts appear as that end, not as times.
- The text a mail carries, the detail and last-error columns, and the updated, created and sent timestamps.
- Device rows come back ordered by id; the results hold for any order.
- Retention that overtakes a position makes the client reset it; only retention below the positions' future reads is modelled, by trimming the front of a log.
- One topic: keys are partition numbers. Repeated positions for one partition and answers of different lengths appear as failed checks.
- Lag figures, poll-delay observation, log throttling and reason texts, which decide nothing.
- A database error in the consumer ends the process; in the objects' loop it is a crash, in the systems a crash move.
- SMTP transport and mail rendering, the Oracle status cache, CloudEvents parsing, FastAPI routing, authentication and presentation, the SQLite device-state repository, schema creation and migration, thread start and stop.
