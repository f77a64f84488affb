# Payment streams: contract, indexer and off-chain mirrors

This project models a token-streaming protocol and proves what it keeps over
every run. Four parts are modelled, and tied to each other:

1. **The streaming contract.** Senders escrow tokens for recipients, who draw
   them down along a linear drip, step tranches, or a cliff with a linear tail.
   `StreamTypes`, `Storage`, `Vesting` and `Entrypoints` say on values what each
   entrypoint answers and stores: bounded integers with the source's checked,
   saturating and truncating operations written out, a token ledger, an event
   log, and slots that hold current, legacy or unreadable records. The class
   `StreamContracts.StreamContract` does the same work in place, field by field
   and loop by loop, and every method is proved to agree with its entrypoint
   function, with everything rolled back on an error. A run (`Entrypoints.Run`)
   is any sequence of calls, clock ticks, mints and outside transfers.
   `Calls` says of every call, in its own arguments and in what is stored, when
   it is refused and what it leaves; `Terms` what that means for the rest of a
   stream's life. `Lifecycle`, `Solvency`, `Runs`, `ClosedForm`, `BatchWithdrawals`,
   `Migration`, `EndTime`, `Fees` and `Governance` prove its properties.
2. **The indexer worker.** `Indexer` specifies the handlers on rows and seen
   (transaction, type) pairs, `RowTimes` on the columns that depend on the
   worker's clock; `EventWorkers.EventWorker` updates them in place, one poll at
   a time. `ContractLog` says what the log of a contract run can look like;
   `Projection`, `Replay` and `PollOrder` show when the rows repeat the
   contract's records, `Quarantine` which events of a batch fail, and `Polling`
   when polls, each fetching the next page, get through a log. `RowEnds` compares
   the end times of the rows with the contract's. `BatchMutex` is
   the promise chain that serialises batches, as a state machine over its steps.
3. **The claimable mirror and its cache.** `ClaimableServices` is the second
   implementation of the accrual formula; `WorkerClock` says what it makes of
   the rows the worker leaves; `Lru` and `MemoryCaches` are the cache in front
   of it, and `Texts` the text of its keys.
4. **The RPC pool.** `Circuit` and `RpcPools`: circuit breaker and failover.

`Examples` holds the small runs the concrete results refer to.
`dafny verify dfyconfig.toml` checks the whole project.

## Reading the source

- `collect_fee` at `contracts/stream_contract/src/lib.rs:497` and `:584` is read
  with `?`, as at `:387` and `:722`.
- `ArithmeticOverflow`, `StreamNotActive`, `StreamStillActive`, `remove_stream`
  and `StreamClosedEvent` are used but not declared; they are modelled as their
  names say. `Stream::cliff_time` is never read and is left out: the record has
  the 13 fields `storage.rs:26` counts.
- A token is a ledger of balances between 0 and the i128 maximum. A transfer
  moves exactly the amount or aborts the call. A panic of any kind is the error
  `HostTrap`; every error rolls the call back.
- The contract's own address can authenticate no call of its own, so a call in
  its name is refused (`AuthFailed`).

## What the proofs found

- **A batch can be under-reported.** `batch_withdraw` emits one withdrawal event
  per stream paid, all in one transaction; its comment
  (`contracts/stream_contract/src/lib.rs:1336-1339`) says an indexer sees what
  separate calls would have shown it. The worker keys events by (transaction,
  type), so it drops all but the first
  (`backend/src/workers/soroban-event-worker.ts:904-920`).
  `PollOrder.PolledProjectionExactlyWhen` says exactly when a row is right,
  `Projection.BatchPaymentLost` gives a run where it is not, and
  `PollOrder.PolledBatchPaymentLost` shows no cut into polls helps.
- **Handling a creation again resets a topped-up deposit**, and only that does
  (`Replay.ReplayKeepsDepositIff`, `Replay.ReplayResetsDeposit`).
- **Handling a creation again revives a finished stream's row**: it sets the row
  active, and nothing undoes that unless the closing event comes again after it
  (`Replay.ReplayKeepsActivityIff`, `Replay.ReplayRevives`; over polls
  `PollOrder.PolledReplayKeepsActivityIff`).
- **Polling can stop for good.** The cursor moves only past an event that was
  handled, so 100 events in a row that all fail - withdrawals of step or hybrid
  streams, which have no row - are fetched again for ever
  (`Polling.PollingReachesAllIff`, `Polling.StuckMeansRowless`,
  `Polling.PollingCanStall`).
- **Resume truncates silently.** Its comment promises `ArithmeticOverflow`; the
  code casts the quotient to 64 bits and only the addition can fail. The model
  follows the code (`EndTime.ResumeFigureTruncatesIff`). When the addition does
  fail, it fails for good (`EndTime.ResumeTrapIsPermanent`).
- **A top-up of a hybrid stream reports the wrong end before its cliff**: it
  divides the whole deposit, lump included, by the rate. One a second, 1000
  deposited, 500 of it due at 100: the event says 1000, the projection 600
  (`EndTime.HybridTopUpFigureAgreesIff`, `EndTime.HybridTopUpFigureDiffers`).
  On a paused stream, linear or hybrid, it counts from now and the projection
  does not (`EndTime.PausedTopUpFigureAgreesIff`).
- **A paused linear stream's projected end stands still** while the true one
  moves on. It is too late at first, having jumped by the seconds accrued before
  the pause, right at the one moment when the pause has lasted as long as the
  stream had run since its anchor, and too early from then on
  (`EndTime.EndJumpsAtPause`, `EndTime.PausedEndAgreesIff`).
- **The step total saturates**, so a schedule that does not add up to the
  deposit is accepted when, and only when, the net is the i128 maximum
  (`Vesting.ScheduleAcceptedIff`, `Vesting.SaturatedScheduleAccepted`).
- **The schema version can drop** through `initialize`, and nowhere else: on a
  store without a config that carries a version newer than the code's
  (`Migration.VersionDropsIff`). No run from deployment gets there
  (`Migration.NoDropFromDeployment`).
- **The mirror departs from the contract**, for a row that repeats the record,
  only on paused records without a pause time or queried before it
  (`ClaimableServices.MirrorAgreesIff`); no reachable record is among them.
- **A topped-up row's end is off by the worker's delays.** It adds up the pauses
  by the worker's own clock, so it is the contract's end exactly when those add
  up to the time the stream was really paused
  (`RowEnds.ToppedUpRowEndAgreesIff`).
- **The worker's rows do not all repeat the record.** A top-up, pause or resume
  sets the last-update time, from which the service accrues, to the worker's
  clock: right after a top-up the service answers 0 while the contract still owes
  what had accrued. It is right again from the next withdrawal on
  (`WorkerClock.WorkerAnswerAgreesIff`, `WorkerClock.RightAfterPayment`,
  `WorkerClock.TopUpForgetsAccrual`).

## Model

| member | source | states |
|---|---|---|
| `Runs.SolvencyOverEveryRun` | contracts/stream_contract/src/lib.rs:359-435 | From deployment, after any sequence of calls, clock ticks, mints and token transfers, every token balance of the contract covers the sum of (deposited - withdrawn) over the active streams in that token; it exceeds it by exactly the starting balance when nobody pays the contract directly and it is never treasury or recipient |
| `Runs.RunInvariant` | contracts/stream_contract/src/lib.rs:956-985 | From any well-formed store: the lifecycle invariant survives every run, the surplus over what is owed never shrinks in any token, and stays constant along runs that send the contract nothing |
| `Runs.FinishedStreamsAreFinal` | contracts/README.md:51-77 | A cancelled or completed record is never changed by any run; it can only be deleted, and a deleted id never comes back |
| `Runs.CloseSucceedsIff` | contracts/stream_contract/src/lib.rs:1147-1196 | Closing succeeds exactly when the caller is sender, recipient or admin and the status is terminal: the balance checks never refuse a reachable completed stream |
| `Runs.WithdrawSucceedsIff` | contracts/stream_contract/src/lib.rs:999-1050 | In a solvent well-formed store a withdrawal by the recipient succeeds exactly when the stream is active, unpaused, has something due and the recipient can hold it; it then pays exactly what is due |
| `Runs.CancelSettlesInFull` | contracts/stream_contract/src/lib.rs:1068-1126 | Cancelling splits the unpaid deposit between recipient (accrued) and sender (rest) with nothing left over, and succeeds exactly when both can hold their share, also when they are the same account |
| `ClosedForm.LinearClosedForm` | contracts/stream_contract/src/lib.rs:795-822 | Over any run from any well-formed store, legacy records included: an active linear stream has withdrawn + claimable = min(deposited, earned when the run began + rate * unpaused seconds since), under any interleaving of withdraw, pause, resume, top-up and time, overflow of the product included |
| `ClosedForm.LinearFromDeployment` | contracts/stream_contract/src/lib.rs:795-822 | From deployment: withdrawn + claimable = min(deposited, rate * unpaused seconds since creation) in every reachable state |
| `ClosedForm.ScheduledClosedForm` | contracts/stream_contract/src/lib.rs:823-857 | After any run from any well-formed store an active step or hybrid stream has withdrawn + claimable = min(deposited, amount unlocked by the effective time); neither payments nor anchor play a part in that amount, and it never decreases with time |
| `Terms.LinearTermsBind` | contracts/stream_contract/src/lib.rs:359-435 | From a successful linear create on, over every later run while the stream is active: parties, token and start are those of the call, and withdrawn + claimable = min(deposited, (amount - fee) / duration * unpaused seconds since) |
| `Terms.StepTermsBind` | contracts/stream_contract/src/lib.rs:466-540 | From a successful step create on, over every later run while the stream is active: the deposit is amount - fee, and withdrawn + claimable = min(deposit, sum of the steps given in the call that are due, now or at the pause) |
| `Terms.HybridTermsBind` | contracts/stream_contract/src/lib.rs:556-634 | From a successful hybrid create on, over every later run while the stream is active: withdrawn + claimable = 0 before the cliff time given and min(deposited, cliff amount + rate * seconds since) from it on, the rate being (amount - fee - cliff amount) / duration |
| `Terms.ClosedForGood` | contracts/stream_contract/src/lib.rs:1147-1196 | After a successful close the record is gone whatever is run, its id is never issued again, and every later close of it answers StreamNotFound |
| `ClosedForm.PathIndependence` | contracts/stream_contract/src/lib.rs:956-985 | On one record, for all three schedules: any non-decreasing list of withdrawal attempts while unpaused pays the same total, and leaves the same status, as a single attempt at the last time |
| `ClosedForm.AttemptPaysEarned` | contracts/stream_contract/src/lib.rs:956-975 | One attempt brings the total paid to min(deposited, earned), completes the stream exactly when that is the whole deposit, and changes nothing but the payment, the anchor and the status |
| `ClosedForm.WithdrawStoresAttempt` | contracts/stream_contract/src/lib.rs:999-1024 | A successful withdrawal stores precisely the record the attempt describes and touches no other record; a refused one leaves the whole store |
| `ClosedForm.WithdrawIsAttempt` | contracts/stream_contract/src/lib.rs:956-1050 | In a solvent store whose recipient has room, a withdrawal call, paid or refused, leaves exactly the attempted record and moves exactly what the attempt pays |
| `ClosedForm.WithdrawalPatternIrrelevant` | contracts/stream_contract/src/lib.rs:999-1050 | Path independence of calls: from a solvent store, any run of ticks and withdrawals of one unpaused stream, ended by a withdrawal, leaves the payments, status and recipient balance that the ticks and the last withdrawal alone leave, for all three schedules |
| `BatchWithdrawals.BatchIsFold` | contracts/stream_contract/src/lib.rs:1350-1412 | A batch within the size limit gives the same result, state, events and error as folding single withdrawals over the ids and skipping inactive, paused and nothing-due refusals |
| `BatchWithdrawals.BatchRefusals` | contracts/stream_contract/src/lib.rs:1350-1412 | A batch of more than 30 ids is refused as too large; otherwise it succeeds only when every id is a stream of the caller, and fails, the host aside, only with the not-found or unauthorised error of one of its ids |
| `Runs.BatchRoundIsWithdrawOrSkip` | contracts/stream_contract/src/lib.rs:1369-1409 | One round of the batch loop, whose withdrawal result is discarded, is a single withdrawal or a skip: in no store, well formed or not, is the discarded result an overflow |
| `BatchWithdrawals.BatchSettlesEachOnce` | contracts/stream_contract/src/lib.rs:1350-1412 | A successful batch pays every listed payable stream exactly once its claimable amount, whatever the order and repetitions, leaves each listed record as a lone withdrawal would, and leaves all other records alone |
| `BatchWithdrawals.BatchOrderIrrelevant` | contracts/stream_contract/src/lib.rs:1350-1412 | Permuting the ids of a batch changes neither whether it succeeds nor the final records, balances and multiset of payouts, events aside |
| `Migration.LazyMigrationIsInvisible` | contracts/stream_contract/src/storage.rs:94-132 | Along any run, a store mixing legacy and current records returns the same responses as the store whose legacy records were all rewritten beforehand, field for field with the linear schedule, and ends in the same decoded state; writes only ever store the current shape |
| `Terms.LegacyRecordRead` | contracts/stream_contract/src/storage.rs:94-132 | A legacy record is read with all twelve fields as stored, on the linear schedule |
| `Terms.LegacyConfigRead` | contracts/stream_contract/src/storage.rs:163-186 | Legacy settings are read with admin, treasury and fee as stored, not paused, without a guardian |
| `Terms.CurrentRead` | contracts/stream_contract/src/storage.rs:94-132 | Current records and settings are read as stored, anything else not at all |
| `Terms.FirstLegacyWithdrawal` | contracts/stream_contract/src/lib.rs:999-1050 | In a solvent store whose recipient has room, the first withdrawal from a running legacy stream pays its recipient min(rate * seconds since the anchor, deposited - withdrawn) and stores the record in the current shape on the old terms |
| `Migration.CallWidens` | contracts/stream_contract/src/lib.rs:1488-1519 | Every entrypoint commutes with eager widening: same response, and the widened outcome on the widened store |
| `Migration.CallWrites` | contracts/stream_contract/src/storage.rs:83-91 | After any entrypoint call each slot either holds the current shape or is exactly what it was |
| `Migration.QueriesAgree` | contracts/stream_contract/src/lib.rs:1541-1549 | The claimable query and the pause query answer the same on the widened store |
| `Migration.VersionNeverDecreases` | contracts/stream_contract/src/lib.rs:1488-1519 | Starting at or below the version this contract writes, no run lowers the schema version or takes it past that version |
| `Migration.VersionDropsIff` | contracts/stream_contract/src/lib.rs:92-128 | For any starting version: a call lowers the version exactly when it is a successful initialisation of a config-less store carrying a newer version |
| `Migration.VersionCanDrop` | contracts/stream_contract/src/lib.rs:92-128 | On every config-less store one version ahead of the code, initialising does lower the version |
| `Migration.NoDropFromDeployment` | contracts/stream_contract/src/lib.rs:92-128 | No run from deployment reaches such a store: the version never drops there, and never passes the one the code writes |
| `Vesting.ClaimableIsEarnedMinusPaid` | contracts/stream_contract/src/lib.rs:795-858 | For every schedule the claimable amount, with all its saturations and early exits, is max(0, min(deposited, earned in exact arithmetic) - withdrawn) |
| `Vesting.EarlyExitIsFullScan` | contracts/stream_contract/src/lib.rs:823-838 | The step loop that stops at the first future step computes the exact full-scan sum, capped at i128 max |
| `Vesting.ScheduleAcceptedIff` | contracts/stream_contract/src/lib.rs:640-671 | A schedule is accepted exactly when its steps are positive, after the start and strictly increasing and their exact total is the net deposit - or the net is i128 max and the total exceeds it |
| `Vesting.FirstComplaint` | contracts/stream_contract/src/lib.rs:640-671 | A refused schedule is refused for its first step out of line with the ones before it: amount, then start, then order |
| `Vesting.SaturatedScheduleAccepted` | contracts/stream_contract/src/lib.rs:662-667 | A concrete accepted schedule whose steps add up to one more than the deposit |
| `Vesting.EarnedMonotone` | contracts/stream_contract/src/lib.rs:795-858 | What has been earned never decreases with time |
| `Vesting.CalculateClaimable` | contracts/stream_contract/src/lib.rs:795-858 | The branching and looping computation returns the specified claimable amount |
| `Vesting.ValidateStepSchedule` | contracts/stream_contract/src/lib.rs:640-671 | The one-pass validation loop returns the first fault in step order, else the total mismatch, else nothing |
| `EndTime.WithdrawalKeepsEnd` | contracts/stream_contract/src/lib.rs:868-904 | Linear streams: a partial withdrawal leaves the projected end where it was |
| `EndTime.ProjectedEndIs` | contracts/stream_contract/src/lib.rs:868-904 | The projected end of every well-formed record: anchor or pause, or cliff, plus the whole seconds the balance lasts, those cut to 64 bits and the sum capped; or the last step |
| `EndTime.PauseThenResumeMovesEnd` | contracts/stream_contract/src/lib.rs:1251-1314 | Linear streams: pausing and then resuming moves the projected end by exactly the length of the pause |
| `EndTime.PausedEndAgreesIff` | contracts/stream_contract/src/lib.rs:893-901 | Every paused linear stream at every query time: the reported end, in closed form, is where a resume at that time would put it exactly when the pause has lasted as long as the stream had run since its anchor; it is too late before then and too early after |
| `EndTime.EndJumpsAtPause` | contracts/stream_contract/src/lib.rs:893-901 | Linear streams: the act of pausing moves the reported end forward by the seconds accrued since the anchor |
| `EndTime.PausedEndBothWays` | contracts/stream_contract/src/lib.rs:893-901 | One paused stream whose reported end is 10 seconds late, then right, then 10 seconds early |
| `EndTime.ScheduledEndStays` | contracts/stream_contract/src/lib.rs:1280-1299 | Step and hybrid streams: withdrawals, pauses, resumes and cancellation leave the projected end where it was, and resume answers with it |
| `EndTime.ResumeReports` | contracts/stream_contract/src/lib.rs:1251-1314 | A successful resume answers and logs one end: linear, 64 bits permitting, now + max(0, seconds left at the anchor - seconds run before the pause); step, the last unlock; hybrid, the end of the tail |
| `EndTime.ResumeFigureAgreesIff` | contracts/stream_contract/src/lib.rs:1265-1289 | The end a resume call answers with is the projected end of the record it stores: always for step and hybrid streams, for linear ones exactly when the stream had not run dry |
| `EndTime.TopUpEventAgreesIff` | contracts/stream_contract/src/lib.rs:693-755 | For every successful top-up call: the end in its event is the projected end of the record it stores exactly under the condition of its kind of stream, running and paused, as the next four rows give it |
| `EndTime.TopUpReports` | contracts/stream_contract/src/lib.rs:724-745 | The end in the event of a top-up call is the figure of the record it stores, the deposit already raised |
| `EndTime.TopUpFigureAgreesIff` | contracts/stream_contract/src/lib.rs:732-738 | Running linear streams: the end time in the top-up event equals the projection of the stored record exactly when the stream had not run dry |
| `EndTime.PausedTopUpFigures` | contracts/stream_contract/src/lib.rs:732-738 | Paused linear streams: the event reports now plus the seconds left at the pause, the projection the pause time plus the seconds left at the anchor |
| `EndTime.PausedTopUpFigureAgreesIff` | contracts/stream_contract/src/lib.rs:732-738 | Paused linear streams, 64 bits permitting: the two agree exactly when the pause has lasted as long as the stream had run since its anchor, or, for one run dry, when now is the projected end |
| `EndTime.HybridTopUpFigureAgreesIff` | contracts/stream_contract/src/lib.rs:708-738 | Hybrid streams: from the cliff on the two agree exactly when the tail has not run dry and, if paused, now is the pause time; before the cliff exactly when now + deposited / rate is the end of the tail |
| `EndTime.HybridTopUpFigureDiffers` | contracts/stream_contract/src/lib.rs:708-738 | A run - mint, hybrid create, top-up - whose event reports 1000 while the stored stream projects 600 |
| `EndTime.EndIsFirstDrainedMoment` | contracts/stream_contract/src/lib.rs:868-904 | Running linear streams: the projected end is the first moment at which less than one second of the rate is left unaccrued |
| `EndTime.HybridEndIsFirstDrainedMoment` | contracts/stream_contract/src/lib.rs:885-891 | Running hybrid streams, from the cliff on: the projected end is the first moment at which less than one second of the rate is left unaccrued |
| `EndTime.StepEndIsFirstDrainedMoment` | contracts/stream_contract/src/lib.rs:878-884 | Step streams whose steps add up to the deposit: everything has accrued exactly from the projected end on |
| `EndTime.ResumeSucceedsIff` | contracts/stream_contract/src/lib.rs:1251-1314 | Resuming succeeds exactly for the sender of a paused stream and, if linear, when the truncated quotient added to now fits 64 bits |
| `EndTime.ResumeTrapIsPermanent` | contracts/stream_contract/src/lib.rs:1289-1289 | A paused stream whose resume traps now cannot be resumed at any later time either, unless it is changed |
| `EndTime.ResumeTrapReached` | contracts/stream_contract/src/lib.rs:1289-1289 | A run - mint, one second, create, pause - after which no resume ever succeeds |
| `EndTime.ResumeFigureTruncatesIff` | contracts/stream_contract/src/lib.rs:1289-1289 | The end a resume call of a linear stream answers with is now + undrawn / rate exactly when that quotient fits 64 bits; the cast drops its high bits otherwise |
| `EndTime.ResumeFigureCanBeTruncated` | contracts/stream_contract/src/lib.rs:1289-1289 | A run - mint, create, pause - whose resume answers with an end time 2^64 seconds early instead of an overflow error |
| `Fees.FeeDriftBound` | contracts/stream_contract/src/test.rs:2826-2883 | Over any n deposits at one rate, net credited + fees = gross exactly, and total fees are at most the fee on the gross and below it by at most n - 1 |
| `Fees.CollectedFee` | contracts/stream_contract/src/lib.rs:1575-1608 | A successful collection moves exactly the truncated fee from the contract to the treasury and credits the rest |
| `Fees.RoundingLoss` | contracts/stream_contract/src/lib.rs:1575-1608 | The fraction lost to truncation over n deposits lies between 0 and 9999 n ten-thousandths of a token |
| `Solvency.FeeBelowAmount` | contracts/stream_contract/src/lib.rs:1600-1602 | With the rate capped at 10% the fee is non-negative and strictly below the amount |
| `Lifecycle.MovedWellFormed` | contracts/stream_contract/src/lib.rs:956-985 | Each of the five ways a call may rewrite an active record keeps the lifecycle invariant, the parties, token, rate, schedule and start, and never lowers payments, deposit or entitlement |
| `Lifecycle.SettledWellFormed` | contracts/stream_contract/src/lib.rs:956-975 | A withdrawal leaves a well-formed record whose total paid is min(deposited, earned) |
| `Lifecycle.ResumedWellFormed` | contracts/stream_contract/src/lib.rs:1251-1314 | Resuming keeps the invariant and moves the anchor forward by exactly the pause, never past now |
| `Lifecycle.CancelledWellFormed` | contracts/stream_contract/src/lib.rs:1068-1099 | Cancelling records as paid exactly what had been earned by the effective time |
| `Lifecycle.EntitlementGrows` | contracts/stream_contract/src/lib.rs:795-858 | Waiting never lowers what the recipient has had or could take |
| `Lifecycle.EntitlementIsEarned` | contracts/stream_contract/src/lib.rs:795-858 | Paid plus claimable is min(deposited, earned by the effective time) for an active record |
| `Lifecycle.EvolvedWellFormed` | contracts/stream_contract/src/storage.rs:49-61 | The record-by-record description of what a call may do preserves the invariant of the whole store, ids below the counter included |
| `Runs.CallEvolves` | contracts/stream_contract/src/lib.rs:359-435 | Every entrypoint other than the batch does, record by record, only what the lifecycle allows and never eats into the surplus |
| `Runs.CallKeeps` | contracts/stream_contract/src/lib.rs:1350-1412 | Every entrypoint, batch included, keeps the store well formed, keeps the surplus and only moves records forward |
| `Runs.StepKeeps` | contracts/stream_contract/src/lib.rs:956-985 | The same for every step of a run, time, mints and outside transfers included |
| `Solvency.DepositEffect` | contracts/stream_contract/src/lib.rs:1575-1608 | A deposit credits a positive net no larger than the amount, and the contract balance rises by at least the net, by exactly the net when it is not its own treasury |
| `Solvency.CreateStreamEffect` | contracts/stream_contract/src/lib.rs:359-435 | A linear create adds one well-formed record under the next id and keeps the surplus |
| `Solvency.CreateStepEffect` | contracts/stream_contract/src/lib.rs:466-540 | The same for a step-tranche create |
| `Solvency.CreateHybridEffect` | contracts/stream_contract/src/lib.rs:556-634 | The same for a cliff-plus-linear create |
| `Solvency.TopUpEffect` | contracts/stream_contract/src/lib.rs:693-755 | A top-up keeps the surplus: balance and obligation rise together |
| `Solvency.WithdrawEffect` | contracts/stream_contract/src/lib.rs:999-1050 | A withdrawal lowers balance and obligation by the same amount in every token |
| `Solvency.CancelEffect` | contracts/stream_contract/src/lib.rs:1068-1126 | A cancellation clears the obligation and pays out no more than it was |
| `Solvency.CloseEffect` | contracts/stream_contract/src/lib.rs:1147-1196 | Closing removes only records nothing is owed on |
| `Solvency.PauseEffect` | contracts/stream_contract/src/lib.rs:1205-1232 | Pausing keeps the surplus and moves one record |
| `Solvency.ResumeEffect` | contracts/stream_contract/src/lib.rs:1251-1314 | Resuming keeps the surplus and moves one record |
| `Calls.CreateLinearDoes` | contracts/stream_contract/src/lib.rs:359-435 | Which complaint refuses a linear create and, otherwise, the record field by field from the arguments, the one new id, the fee and the two balances it moves, and the events, nothing else changed |
| `Calls.CreateStepDoes` | contracts/stream_contract/src/lib.rs:466-540 | The same for a step create: 1 to 12 good steps, and the very steps given are stored |
| `Calls.CreateHybridDoes` | contracts/stream_contract/src/lib.rs:556-634 | The same for a hybrid create: cliff time and amount as given, and a rate of at least one |
| `Calls.DepositDoes` | contracts/stream_contract/src/lib.rs:1575-1608 | A deposit goes through exactly when sender, contract and treasury can take it; the fee is amount * bps / 10000 rounded down and every balance moves by its share |
| `Calls.TopUpDoes` | contracts/stream_contract/src/lib.rs:693-755 | Which complaint refuses a top-up and, otherwise, that only the deposit of the record changes, by the net amount, with the end time logged as now + undrawn / rate |
| `Calls.WithdrawDoes` | contracts/stream_contract/src/lib.rs:999-1050 | Which complaint refuses a withdrawal and, otherwise, that exactly min(deposited, earned) - withdrawn is paid, recorded and logged, with a completion when it is the last of the deposit |
| `Calls.QueryAnswers` | contracts/stream_contract/src/lib.rs:1541-1549 | The query answers none for no stream, 0 for a finished one, else what is due, which is what a withdrawal at that moment pays |
| `Calls.CancelDoes` | contracts/stream_contract/src/lib.rs:1068-1126 | Which complaint refuses a cancellation and, otherwise, the record, the two payments and the event it leaves |
| `Calls.CloseDoes` | contracts/stream_contract/src/lib.rs:1147-1196 | Which complaint refuses a close and, otherwise, that the record is deleted, one event logged, and nothing else changes |
| `Calls.PauseDoes` | contracts/stream_contract/src/lib.rs:1205-1232 | Which complaint refuses a pause, that of a caller other than the sender among them, and, otherwise, the record and event it leaves, with what is due standing still from then on |
| `Calls.ResumeDoes` | contracts/stream_contract/src/lib.rs:1251-1314 | Which complaint refuses a resume and, otherwise, the record with its anchor moved on by the pause, and one end in answer and event |
| `Calls.WithdrawRefuses` | contracts/stream_contract/src/lib.rs:999-1024 | For any stored record at all, the first complaint that refuses a withdrawal, and that none but money trouble stops one past it |
| `Calls.CancelRefuses` | contracts/stream_contract/src/lib.rs:1068-1081 | The same for a cancellation, which past its checks only the host can stop |
| `Calls.PauseRefuses` | contracts/stream_contract/src/lib.rs:1205-1216 | The same for a pause, which past its checks always succeeds |
| `Calls.ResumeRefuses` | contracts/stream_contract/src/lib.rs:1251-1264 | The same for a resume |
| `Calls.TopUpRefuses` | contracts/stream_contract/src/lib.rs:693-716 | The same for a top-up |
| `Governance.InitializeDoes` | contracts/stream_contract/src/lib.rs:92-128 | Which complaint refuses initialisation and, otherwise, that exactly the given admin, treasury and fee are stored, unpaused, without guardian, at version 2 |
| `Governance.UpdateFeeConfigDoes` | contracts/stream_contract/src/lib.rs:139-178 | Which complaint refuses a fee update and, otherwise, that treasury and fee change and no other setting does |
| `Governance.SetProtocolPauseDoes` | contracts/stream_contract/src/lib.rs:256-289 | Who may move the breaker which way, with the error of each refusal, and the one setting it changes |
| `Governance.MigrateDoes` | contracts/stream_contract/src/lib.rs:1488-1519 | Only the admin migrates, only to a version between the present and 2; the version then is the target and the settings are stored in the current shape |
| `Governance.SettingsChangeOnlyByAuthority` | contracts/stream_contract/src/lib.rs:139-178 | After any modelled call every protocol setting is what an authorised fee update or breaker switch makes it, and otherwise unchanged: only the admin sets fees or clears the breaker, the guardian can trip it, the cap holds |
| `Governance.BreakerStopsMoneyIn` | contracts/stream_contract/src/lib.rs:335-340 | While the breaker is engaged every create and top-up is refused and changes nothing |
| `Governance.BreakerLeavesStreamsAlone` | contracts/stream_contract/src/lib.rs:1341-1343 | Withdrawing, batching, cancelling, closing, pausing and resuming answer and do the same whichever position the breaker is in |
| `Storage.TransferConserves` | contracts/stream_contract/src/lib.rs:980-983 | A successful token transfer moves the amount between the two balances and changes no other balance |
| `StreamContracts.StreamContract.CreateStream` | contracts/stream_contract/src/lib.rs:359-435 | Step by step, agrees with the specification of the linear create: same answer, same new store; on an error everything is rolled back |
| `StreamContracts.StreamContract.CreateStepVestingStream` | contracts/stream_contract/src/lib.rs:466-540 | Agrees with the specification of the step-tranche create |
| `StreamContracts.StreamContract.CreateHybridCliffStream` | contracts/stream_contract/src/lib.rs:556-634 | Agrees with the specification of the cliff-plus-linear create |
| `StreamContracts.StreamContract.TopUpStream` | contracts/stream_contract/src/lib.rs:693-755 | Agrees with the specification of top-up |
| `StreamContracts.StreamContract.ApplyWithdrawal` | contracts/stream_contract/src/lib.rs:956-985 | Record first, transfer after; agrees with the specification of one payment |
| `StreamContracts.StreamContract.Withdraw` | contracts/stream_contract/src/lib.rs:999-1050 | Agrees with the specification of withdraw |
| `StreamContracts.StreamContract.BatchWithdraw` | contracts/stream_contract/src/lib.rs:1350-1412 | The loop over the ids agrees with the specification of the batch |
| `StreamContracts.StreamContract.CancelStream` | contracts/stream_contract/src/lib.rs:1068-1126 | Agrees with the specification of cancel |
| `StreamContracts.StreamContract.CloseStream` | contracts/stream_contract/src/lib.rs:1147-1196 | Agrees with the specification of close |
| `StreamContracts.StreamContract.PauseStream` | contracts/stream_contract/src/lib.rs:1205-1232 | Agrees with the specification of pause |
| `StreamContracts.StreamContract.ResumeStream` | contracts/stream_contract/src/lib.rs:1251-1314 | Agrees with the specification of resume |
| `StreamContracts.StreamContract.Initialize` | contracts/stream_contract/src/lib.rs:92-128 | Agrees with the specification of initialize |
| `StreamContracts.StreamContract.UpdateFeeConfig` | contracts/stream_contract/src/lib.rs:139-178 | Agrees with the specification of the fee update |
| `StreamContracts.StreamContract.SetProtocolPause` | contracts/stream_contract/src/lib.rs:256-289 | Agrees with the specification of the circuit breaker |
| `StreamContracts.StreamContract.Migrate` | contracts/stream_contract/src/lib.rs:1488-1519 | Agrees with the specification of migrate |
| `StreamContracts.StreamContract.CollectFee` | contracts/stream_contract/src/lib.rs:1575-1608 | Agrees with the specification of the fee collection |
| `StreamContracts.StreamContract.Transfer` | contracts/stream_contract/src/lib.rs:980-983 | A token transfer moves exactly the amount or fails and changes nothing |
| `StreamContracts.StreamContract.NextStreamId` | contracts/stream_contract/src/storage.rs:49-61 | The counter rises by one and the new id is returned, or the addition traps |
| `Projection.ProjectionRefinesContract` | backend/src/workers/soroban-event-worker.ts:675-742 | After the worker handles the log of any contract run with distinct (transaction, type) pairs, a stored stream has a row exactly when it is linear, and the row has the contract's parties, rate, start, deposited, withdrawn and activity, and its pause state while active |
| `Projection.ProjectionExactlyWhen` | backend/src/workers/soroban-event-worker.ts:888-937 | In ledger order, without the distinctness assumption: the row's activity always agrees; its withdrawn amount agrees exactly when the stream has finished or no payment of it shared its transaction with an earlier recorded payment; its deposit exactly when the latest top-up was not taken for a duplicate |
| `Projection.MissedIffShadowed` | backend/src/workers/soroban-event-worker.ts:904-920 | The amount missed is zero exactly when no withdrawal of the stream was preceded, in the same transaction, by one that reached a row |
| `Projection.BatchPaymentLost` | contracts/stream_contract/src/lib.rs:1350-1412 | A concrete run: a batch paying two streams in one transaction leaves the second row with nothing withdrawn although 100 was paid |
| `Projection.HandleAllLagging` | backend/src/workers/soroban-event-worker.ts:795-853 | The exact contents of every row, relative to ledger truth, after any orderly log |
| `ContractLog.LogOfEveryRun` | contracts/stream_contract/src/lib.rs:421-432 | In every reachable state the log is orderly - one creation per id, nothing before it, nothing after completion or cancellation but no other event - and replaying it accounts for every stored, deleted and unissued id |
| `ContractLog.CallAccounts` | contracts/stream_contract/src/lib.rs:1027-1047 | Each successful call appends events that say of the row exactly what happened to the record |
| `Indexer.HandleAllFresh` | backend/src/workers/soroban-event-worker.ts:502-555 | On fresh (transaction, type) pairs the database row is the fold of the stream's own events; quarantined events leave no trace |
| `Indexer.CreationFills` | backend/src/workers/soroban-event-worker.ts:675-742 | On any database a creation is never skipped: a new row gets everything the event says and nothing paid, an old one a new token, rate, deposit, start and activity, and keeps parties, payments and pause |
| `Indexer.KindsTellApart` | backend/src/workers/soroban-event-worker.ts:502-555 | Two events share a deduplication type only if they are of the same kind |
| `Indexer.DuplicatesPassedOver` | backend/src/workers/soroban-event-worker.ts:795-822 | Top-ups, withdrawals and fees already recorded change nothing, row or no row |
| `Indexer.OthersRedone` | backend/src/workers/soroban-event-worker.ts:972-1016 | Other events of a stream are done again each time, and fail without a row |
| `Indexer.RowChanges` | backend/src/workers/soroban-event-worker.ts:846-853 | What each kind of event changes in an existing row, and that it changes no more |
| `Indexer.FeesAndOthers` | backend/src/workers/soroban-event-worker.ts:1118-1166 | Fees leave all rows alone, new fee settings make sure of an empty inactive system row, and unknown kinds do nothing |
| `Replay.ReplayKeepsWithdrawals` | backend/src/workers/soroban-event-worker.ts:718-742 | After the log of any run has been handled, duplicates included, handling any further sequence of its entries, any number of times and in any order, leaves every withdrawn amount unchanged |
| `Replay.ReplayKeepsDepositIff` | backend/src/workers/soroban-event-worker.ts:718-742 | Such a replay keeps a row's deposited amount exactly when it does not contain the stream's creation or every top-up of the stream was taken for a duplicate |
| `Replay.ReplayResetsDeposit` | backend/src/workers/soroban-event-worker.ts:718-742 | A run - create, top up - whose row goes back to the first deposit when the creation is handled again |
| `Replay.ReplayMany` | backend/src/workers/soroban-event-worker.ts:903-937 | Payments and deposit after any replay: payments as before, deposit as stated by the last creation replayed |
| `Replay.ReplayFullEffect` | backend/src/workers/soroban-event-worker.ts:718-742 | Every field of a row after any replay: parties, token, rate, start and payments as before, deposit as the last replayed creation states it, activity and pause as the last replayed events that speak of them say |
| `Replay.ReplayKeepsActivityIff` | backend/src/workers/soroban-event-worker.ts:718-742 | A replay of any entries keeps activity exactly when none of them speaks of it or the last that does says what the log said last |
| `Replay.ReplayRevives` | backend/src/workers/soroban-event-worker.ts:718-742 | A run - create, cancel - whose row becomes active again when the creation is handled once more |
| `Replay.SuffixReplayKeepsActivity` | backend/src/workers/soroban-event-worker.ts:987-995 | Reprocessing any suffix of any log any number of times leaves every row's activity unchanged |
| `Replay.TerminalIsFinal` | backend/src/workers/soroban-event-worker.ts:1060-1068 | A cancellation or completion names the final paid amount of its row |
| `PollOrder.SortKeepsStreamOrder` | backend/src/workers/soroban-event-worker.ts:391-400 | Sorting creations first keeps each stream's own events in ledger order |
| `PollOrder.SortKeepsFreshness` | backend/src/workers/soroban-event-worker.ts:391-400 | Sorting introduces no duplicate (transaction, type) pair |
| `PollOrder.SortedBatchAgrees` | backend/src/workers/soroban-event-worker.ts:391-400 | A sorted batch gives each stream the row ledger order gives it |
| `PollOrder.PollingAgrees` | backend/src/workers/soroban-event-worker.ts:343-455 | However the log is cut into polled batches, sorting each batch ends in the rows of ledger order |
| `PollOrder.PolledProjectionRefinesContract` | backend/src/workers/soroban-event-worker.ts:343-455 | The refinement theorem holds for the worker as it polls: any cut of any run's log into batches, each sorted |
| `PollOrder.PollingSameRows` | backend/src/workers/soroban-event-worker.ts:391-448 | For every orderly log, repeated (transaction, type) pairs included, and every cut into polls: sorting each poll leaves exactly the rows ledger order leaves, and the same pairs recorded but for fee events |
| `PollOrder.PolledProjectionExactlyWhen` | backend/src/workers/soroban-event-worker.ts:391-448 | The exact condition as the worker polls: over any run and any cut of its log, activity always agrees, the withdrawn amount exactly when the stream has finished or missed no payment, the deposit exactly when its latest top-up was not taken for a duplicate |
| `PollOrder.PolledBatchPaymentLost` | contracts/stream_contract/src/lib.rs:1350-1412 | No cut into polls recovers the payment lost in the concrete batch |
| `PollOrder.PolledReplayKeepsWithdrawals` | backend/src/workers/soroban-event-worker.ts:343-455 | Polling any part of the log of any run again, in any cut, order and number of times, leaves every withdrawn amount unchanged |
| `PollOrder.PolledReplayKeepsActivityIff` | backend/src/workers/soroban-event-worker.ts:343-455 | Polled again in any cut, activity survives exactly when nothing in what the polls handle, creations first in each, speaks of it or the last that does says what the log said last |
| `PollOrder.PolledReplayKeepsDepositIff` | backend/src/workers/soroban-event-worker.ts:343-455 | Polled again in any cut, the deposit survives exactly when the creation is not polled again or every top-up was taken for a duplicate |
| `Quarantine.SortedBatchQuarantinesIff` | backend/src/workers/soroban-event-worker.ts:391-400 | With creations first, an event of a batch fails for want of a row exactly when its stream had no row before the batch and has no creation anywhere in it |
| `Quarantine.LedgerOrderQuarantinesIff` | backend/src/workers/soroban-event-worker.ts:404-440 | In ledger order it fails exactly when there was no row before and no creation earlier in the batch |
| `Quarantine.FeeNeedsTheSort` | backend/src/workers/soroban-event-worker.ts:391-393 | Every linear create that pays a fee logs the fee ahead of the creation: unsorted the fee event is quarantined, sorted nothing is |
| `Quarantine.FeeComesFirst` | contracts/stream_contract/src/lib.rs:383-432 | A fee-paying linear create appends exactly two events, the fee and then the creation, for the new id |
| `EventWorkers.SortedEntries` | backend/src/workers/soroban-event-worker.ts:391-400 | Sorting fetched events and then dropping those of failed calls is sorting the entries |
| `Polling.SortedPageOrder` | backend/src/workers/soroban-event-worker.ts:391-400 | In a sorted page creations come first, and among them, as among the rest, events keep the order of the log |
| `Polling.FetchAndPoll` | backend/src/workers/soroban-event-worker.ts:343-448 | The worker fetching the next 100 entries after its cursor and polling them does to database and cursor what one poll is specified to do |
| `Polling.PollMovesIff` | backend/src/workers/soroban-event-worker.ts:404-448 | For any log and database: a poll moves the cursor, never past its page, exactly when some event of the page would succeed as things stand; otherwise it changes nothing |
| `Polling.PollingReachesAllIff` | backend/src/workers/soroban-event-worker.ts:343-448 | For any log: polling fetches every entry exactly when no poll short of the end meets a full page of failing events; as many polls as entries then suffice, and after such a page the cursor never moves again |
| `Polling.StuckMeansRowless` | backend/src/workers/soroban-event-worker.ts:502-555 | Over the log of any run with distinct pairs, a page fails whole exactly when every event of it wants the row of a stream that no creation up to the end of the page has opened as linear |
| `Polling.PollKeepsStanding` | backend/src/workers/soroban-event-worker.ts:404-448 | After every poll the rows are those of the linear creations fetched so far, and no event past the cursor but a creation counts as seen |
| `Polling.StuckForGood` | backend/src/workers/soroban-event-worker.ts:404-448 | A full page that fails keeps failing however the log goes on |
| `Polling.PollingCanStall` | backend/src/workers/soroban-event-worker.ts:404-448 | A run - one hybrid stream, 101 withdrawals from it - whose last entry no number of polls ever fetches |
| `EventWorkers.EventWorker.HandleStreamCreated` | backend/src/workers/soroban-event-worker.ts:675-742 | Upserts the row and its times as specified: end at start plus deposit over rate, or none at rate 0; a replay overwrites token, rate, deposit, start, activity and those times, not the paused total |
| `EventWorkers.EventWorker.HandleStreamToppedUp` | backend/src/workers/soroban-event-worker.ts:795-853 | Duplicate check, then missing-row failure, then the new deposit, the end recomputed from it and the paused total, and the clock as last update |
| `EventWorkers.EventWorker.HandleTokensWithdrawn` | backend/src/workers/soroban-event-worker.ts:888-937 | Duplicate check, then missing-row failure, then the added payment and the time of the event as last update |
| `EventWorkers.EventWorker.HandleStreamCancelled` | backend/src/workers/soroban-event-worker.ts:972-995 | Sets inactive, the stated payment and the clock as last update, or fails when there is no row |
| `EventWorkers.EventWorker.HandleStreamCompleted` | backend/src/workers/soroban-event-worker.ts:1045-1068 | Sets inactive, the stated total and the clock as last update, or fails when there is no row |
| `EventWorkers.EventWorker.HandleStreamPaused` | backend/src/workers/soroban-event-worker.ts:1181-1204 | Marks the row paused with the clock as last update, or fails when there is no row |
| `EventWorkers.EventWorker.HandleStreamResumed` | backend/src/workers/soroban-event-worker.ts:1253-1290 | Clears the pause, takes the end from the event and the clock as last update, and adds the clock minus the pause time to the paused total (nothing for a pause time of 0), or fails when there is no row |
| `EventWorkers.EventWorker.HandleFeeCollected` | backend/src/workers/soroban-event-worker.ts:1118-1166 | Records the pair once and touches no row |
| `EventWorkers.EventWorker.HandleFeeConfigUpdated` | backend/src/workers/soroban-event-worker.ts:557-620 | Makes sure of the system row and records the pair |
| `EventWorkers.EventWorker.ProcessEvent` | backend/src/workers/soroban-event-worker.ts:502-555 | Dispatch: the database and the times afterwards are what the specified handler gives; a failed handler changes nothing |
| `EventWorkers.EventWorker.HandleInTurn` | backend/src/workers/soroban-event-worker.ts:404-448 | The loop over a batch: rows and times as specified, exactly the failing entries quarantined, cursor and ledger at the last event that went through, or at the server's own cursor |
| `EventWorkers.EventWorker.RunPollCycle` | backend/src/workers/soroban-event-worker.ts:387-448 | One poll: rows and times as specified for the sorted batch, cursor and ledger at the last event that went through (or where they were), exactly the failing entries quarantined and the others counted |
| `RowTimes.AnchorIsLastSet` | backend/src/workers/soroban-event-worker.ts:846-853 | On fresh pairs the last-update time of a row is what the last event of its stream set: the time a creation or withdrawal says, the clock for any other |
| `RowTimes.TimesAreTold` | backend/src/workers/soroban-event-worker.ts:690-694 | On fresh pairs the end time and paused total of a row are what its creation, top-ups, pauses and resumes make them: start + deposit / rate, plus the pauses by the clock after a top-up, or what a resume says |
| `RowTimes.DuplicateStamps` | backend/src/workers/soroban-event-worker.ts:804-822 | A top-up or withdrawal passed over leaves the times of the row alone; every other event of the stream sets its last update again |
| `RowTimes.EndOfIs` | backend/src/workers/soroban-event-worker.ts:690-694 | No end time exactly at rate 0; otherwise start + deposit / rate + paused total |
| `RowEnds.RowTimesOverRuns` | backend/src/workers/soroban-event-worker.ts:832-853 | The same for every stored linear stream over the log of any run with distinct pairs, at any clock readings |
| `RowEnds.EndByPauses` | contracts/stream_contract/src/lib.rs:868-904 | In every reachable state the projected end of a running linear stream is start + deposited / rate + seconds spent paused |
| `RowEnds.ToppedUpRowEndAgreesIff` | backend/src/workers/soroban-event-worker.ts:832-853 | After a top-up of a running linear stream the end in its row is the contract's exactly when the worker's clock has counted its pauses at their true length |
| `WorkerClock.AnchorAgreesIff` | backend/src/services/claimable.service.ts:131-158 | For a row right in everything but its last-update time: the service answers as the contract exactly when that time is the record's own, or lies past it with nothing accrued, or as much has accrued by either reckoning as is left; otherwise it errs low for a later time and high for an earlier one |
| `WorkerClock.MirrorAnswersQuery` | contracts/stream_contract/src/lib.rs:1541-1549 | In every well-formed store the service answers, from a row repeating a linear record, what the contract's own query answers |
| `WorkerClock.WorkerAnswerAgreesIff` | backend/src/services/claimable.service.ts:131-158 | Over the log of any run with distinct pairs and any clock readings of the worker, the exact condition under which the service's answer from the worker's own row is the contract's, now and at any later query |
| `WorkerClock.RightAfterPayment` | backend/src/workers/soroban-event-worker.ts:924-929 | Whenever the last event of a linear stream is its creation or a withdrawal, the answer from the worker's row is the contract's |
| `WorkerClock.TopUpForgetsAccrual` | backend/src/workers/soroban-event-worker.ts:846-853 | A run - create, ten seconds, top up - after which the service answers 0 where the contract owes 100 |
| `BatchMutex.OneAtATimeInOrder` | backend/src/workers/soroban-event-worker.ts:261-277 | In every interleaving at most one batch runs at a time, and starts and ends occur strictly in registration order, rejections included |
| `BatchMutex.DrainWaitsForAll` | backend/src/workers/soroban-event-worker.ts:212-214 | A drain that has resolved implies every batch registered before the drain was called has settled |
| `BatchMutex.AlwaysProgress` | backend/src/workers/soroban-event-worker.ts:261-277 | While any batch is unsettled some non-registering step is possible: a rejection cannot block the chain |
| `BatchMutex.ClearForgetsOwnGate` | backend/src/workers/soroban-event-worker.ts:261-277 | In every interleaving a batch that clears empties the drain field only if no batch was registered after it |
| `BatchMutex.SettledInThreeMovesEach` | backend/src/workers/soroban-event-worker.ts:261-277 | With n batches registered at most 3n starts, settlements and gate moves ever take effect; with fewer another one can, and after 3n every batch has settled and a drain resolves at once |
| `BatchMutex.RunIsOrderly` | backend/src/workers/soroban-event-worker.ts:261-277 | The shape of the chain in every reachable state |
| `ClaimableServices.MirrorAgrees` | backend/src/services/claimable.service.ts:131-158 | For linear records with rate >= 0 queried no earlier than the pause, the service's fresh answer equals the contract's query for all i128 values |
| `ClaimableServices.MirrorAgreesIff` | backend/src/services/claimable.service.ts:131-158 | For all linear records with rate >= 0 and all query times: the two answers agree exactly when the stream is inactive or unpaused, the rate is zero, or the pause time is harmless: not after the query or the anchor, or hidden by a balance already used up; if unknown, the query is not after the anchor or nothing is left |
| `ClaimableServices.MirrorAgreesOnReachable` | contracts/stream_contract/src/lib.rs:1541-1549 | Every record satisfying the lifecycle invariant is on the agreeing side |
| `ClaimableServices.MirrorDiffersWithoutPauseTime` | backend/src/services/claimable.service.ts:137-143 | A paused record without a pause time on which the answers are 70 and 0 |
| `ClaimableServices.AmountDrift` | backend/src/services/claimable.service.ts:131-158 | Between two query times the fresh answer grows by at most rate per second and never shrinks |
| `ClaimableServices.SameBucketDrift` | backend/src/services/claimable.service.ts:114-119 | Two answers for one row in the same 5-second bucket differ by at most 4 * rate, negative times included |
| `ClaimableServices.BucketIs` | backend/src/services/claimable.service.ts:114-119 | The bucket of a moment is the one multiple of 5 at most 4 seconds before it, negative times included |
| `ClaimableServices.FreshValueIs` | backend/src/services/claimable.service.ts:144-158 | Whatever a row holds, the answer is between 0 and what is left of it, and actionable exactly when positive |
| `ClaimableServices.SoundKept` | backend/src/services/claimable.service.ts:160-167 | No cache operation breaks the invariant that each cached value was computed for the row and bucket its key text stands for |
| `ClaimableServices.KeyTextInjective` | backend/src/services/claimable.service.ts:66-87 | The joined text of a cache key tells apart any two rows and any two buckets |
| `Texts.JoinInjective` | backend/src/services/claimable.service.ts:66-87 | Fields joined by colons can be told apart again when no field holds a colon |
| `Texts.DecimalOfInjective` | backend/src/services/claimable.service.ts:66-87 | Decimal text, sign included, stands for one integer only |
| `ClaimableServices.ClaimableAmountService.GetClaimableAmount` | backend/src/services/claimable.service.ts:105-173 | Whether cached or not, the answer is within 4 * rate of the fresh one for the row asked about; a miss is the fresh answer; the cache afterwards is the specified one and still sound |
| `Lru.SizeBounded` | backend/src/lib/redis.ts:133-140 | After any operation sequence on a cache with maxItems >= 0 at most maxItems entries are held, keys all distinct |
| `Lru.HitIsLastSet` | backend/src/lib/redis.ts:61-110 | After any operations on an empty cache, a key that answers was last set and not deleted since, answers with the value and times of that set, and only while its time to live lasts |
| `Lru.GoneIsGone` | backend/src/lib/redis.ts:61-131 | A key that did not answer, or was deleted, is held no longer, and a sweep leaves nothing expired |
| `Lru.RecentlyTouchedIsKept` | backend/src/lib/redis.ts:61-140 | A key touched, not deleted and not expired at any later clock reading, with fewer than maxItems other keys touched since, still holds its last set value |
| `Lru.TouchingPutsLast` | backend/src/lib/redis.ts:61-90 | A set or a hit leaves the key as the last candidate for eviction |
| `MemoryCaches.MemoryCache.Get` | backend/src/lib/redis.ts:61-78 | Answers only the value of the last set of the key, not deleted since and still alive; hit, expiry and miss as specified, recency refreshed, counters bumped |
| `MemoryCaches.MemoryCache.Set` | backend/src/lib/redis.ts:80-90 | Overwrites at the recent end and evicts down to the cap |
| `MemoryCaches.MemoryCache.Del` | backend/src/lib/redis.ts:92-94 | Removes the key and nothing else |
| `MemoryCaches.MemoryCache.GetMetadata` | backend/src/lib/redis.ts:96-110 | Answers only the creation and expiry time of the last set of the key while it is alive; like a hit for recency, without counting |
| `MemoryCaches.MemoryCache.Cleanup` | backend/src/lib/redis.ts:123-131 | Drops exactly the expired entries, keeps the order of the rest, then evicts |
| `MemoryCaches.MemoryCache.Sweep` | backend/src/lib/redis.ts:123-129 | The loop over all entries deletes exactly the expired ones and keeps the order of the rest |
| `MemoryCaches.MemoryCache.EvictIfOverCapacity` | backend/src/lib/redis.ts:133-140 | Drops oldest entries one by one until the cap is met |
| `Circuit.ExecuteGuarantees` | backend/src/lib/rpc-pool.ts:68-103 | A call tries each endpoint at most once, never one still cooling down, in order of failures then latency, and fails exactly when every endpoint on offer refuses |
| `Circuit.ExecuteRecords` | backend/src/lib/rpc-pool.ts:105-120 | Each endpoint tried is recorded once by its own answer; the others keep their record apart from half-opening |
| `Circuit.OrderForIsRight` | backend/src/lib/rpc-pool.ts:92-103 | The offered list has each endpoint not cooling down exactly once, best first |
| `Circuit.RankedSorts` | backend/src/lib/rpc-pool.ts:102-102 | The ranking is an ordered permutation of the offered endpoints |
| `Circuit.OfferInFigures` | backend/src/lib/rpc-pool.ts:92-103 | A call is offered every endpoint but those open for less than the cooldown, by fewer failures, then shorter latency, unmeasured last, then place in the pool |
| `Circuit.RecordIsHistory` | backend/src/lib/rpc-pool.ts:105-139 | Over every run of calls and probes, an endpoint's failure count is its refusals since its last answer, its latency that of its latest attempt, and it is closed exactly when that count is below the threshold |
| `Circuit.ConsistentOverEveryRun` | backend/src/lib/rpc-pool.ts:68-139 | With threshold >= 1, over every run of calls and probes: closed exactly when failures < threshold, and closed exactly when no opening time is set |
| `Circuit.RecordKeepsConsistent` | backend/src/lib/rpc-pool.ts:105-120 | One failure while half-open reopens the circuit at that moment; any success closes it |
| `Circuit.OpenUntilCooldown` | backend/src/lib/rpc-pool.ts:68-120 | In every run from a fresh pool, an endpoint found open is skipped, unchanged, by every call before its opening time plus the cooldown; the first call from then on has it on offer, and leaves it closed or newly opened by its trial, or half-open if a better one answered |
| `Circuit.OpenSinceLastRefusal` | backend/src/lib/rpc-pool.ts:92-139 | Over every run of calls and probes, an open circuit dates from its latest refusal, by call or by probe, and is on offer exactly when the cooldown since that refusal is over |
| `RpcPools.Endpoint.RecordSuccess` | backend/src/lib/rpc-pool.ts:105-110 | Resets the record as specified |
| `RpcPools.Endpoint.RecordFailure` | backend/src/lib/rpc-pool.ts:112-120 | Counts the failure and opens at the threshold |
| `RpcPools.RpcPool.AvailableEndpoints` | backend/src/lib/rpc-pool.ts:92-103 | Half-opens in place what has cooled down and returns the specified ranking |
| `RpcPools.RpcPool.Execute` | backend/src/lib/rpc-pool.ts:68-90 | The failover loop over shared records gives the specified outcome and records |
| `RpcPools.RpcPool.TryInOrder` | backend/src/lib/rpc-pool.ts:70-89 | The loop itself, over any order: endpoints tried one by one until one answers, each recorded in place |
| `RpcPools.RpcPool.ProbeAll` | backend/src/lib/rpc-pool.ts:126-139 | Records a probe of every endpoint, cooling down or not |

## Left out

- Authentication and signatures: the authenticated address is a parameter of each call.
- StreamContracts.StreamContract.CreateStream: leaves out the probe that the token address is a token contract and its refusal, a call into code outside the model.
- StreamContracts.StreamContract.CreateStepVestingStream: leaves out the same probe of the token address.
- StreamContracts.StreamContract.CreateHybridCliffStream: leaves out the same probe of the token address.
- Re-entrancy, storage TTLs, wasm upgrade and XDR encoding: host details; an undecodable record is the `Unreadable` case.
- `transfer_admin`, `set_emergency_guardian` and the worker's handler for admin transfers: configuration bookkeeping beside what fees, the pause switch and migration need.
- `get_stream`, `is_stream_completed`, `get_vesting_schedule`, `get_fee_config` and the version query: plain reads of what is modelled.
- User rows, and a row's pause flag after cancellation: not meant to equal contract fields. The rows' event records beyond their (transaction, type) key are left out.
- WorkerClock.WorkerAnswerAgreesIff: about the log handled in its order and with distinct pairs; `PollOrder` has the statements over polls for the other columns.
- Step and hybrid streams in the projection theorems: the worker ignores their creation events, and the theorems state that they have no row.
- EventWorkers.EventWorker.HandleStreamCreated: leaves out the rejection of malformed payloads.
- EventWorkers.EventWorker.HandleStreamToppedUp: leaves out the rejection of malformed payloads.
- EventWorkers.EventWorker.HandleTokensWithdrawn: leaves out the rejection of malformed payloads.
- EventWorkers.EventWorker.HandleStreamCancelled: leaves out the rejection of malformed payloads.
- EventWorkers.EventWorker.HandleStreamCompleted: leaves out the rejection of malformed payloads.
- EventWorkers.EventWorker.HandleStreamPaused: leaves out the rejection of malformed payloads.
- EventWorkers.EventWorker.HandleStreamResumed: leaves out the rejection of malformed payloads.
- EventWorkers.EventWorker.ProcessEvent: leaves out admin transfers and topics that cannot be decoded.
- Handling of malformed payloads, the dead-letter table and its API, notifications, metrics and the queries that fetch events: I/O; a failing handler is a quarantined event.
- Polling.FetchAndPoll: the server is taken to return the next 100 events after the cursor, in ledger order; other answers, and the first fetch by ledger instead of cursor, are not modelled.
- EventWorkers.EventWorker.RunPollCycle: takes the fetched events as a parameter, already decoded, and the clock readings of its handlers; a failed fetch is not modelled.
- ClaimableServices.ClaimableAmountService.GetClaimableAmount: takes amounts already parsed; the error for text that is no integer, and decimal text not in canonical form, which would only make a second key for the same row, are left out.
- MemoryCaches.MemoryCache.Get: clock readings are parameters, and an operation reads the clock once, as in the source; hit-rate statistics are left out.
- BatchWithdrawals.BatchOrderIrrelevant: compares the final stores with the event log left aside, since events come in the order of the ids.
- RpcPools.RpcPool.Execute: what each endpoint would answer is a parameter, timeouts count as refusals, and calls do not overlap.
- RpcPools.RpcPool.AvailableEndpoints: ranks by insertion on integers, where the source calls the library's stable sort with an absent latency as infinity.
- The pool's url trimming and removal of duplicates, its timer, and error texts.
- ClosedForm.PathIndependence: about one record; `ClosedForm.WithdrawalPatternIrrelevant` is the statement over calls and balances.
- Projection.ProjectionExactlyWhen: about ledger order; `PollOrder.PolledProjectionExactlyWhen` is the statement over polls.
- BatchMutex.DrainWaitsForAll: settling of the promise a drain waits for is one step of the model; micro-task ordering beyond gate, settle and clear steps is not modelled.
- HTTP controllers, webhooks, exports, rate limits and the frontend: plumbing and display.
