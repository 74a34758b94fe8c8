# wallet-scan: a verified model

wallet-scan imports public wallet addresses, walks them by id in durable runs, asks one provider per chain for the
native balance of each address, records errors in a retry queue and positive balances as findings, and later deletes
the addresses it has confirmed to be empty. Provider calls made for other callers go through an adaptive in-flight
limiter. This project models that behaviour in Dafny and proves what it is meant to guarantee.

`dafny verify dfyconfig.toml` checks everything.

## How it is built

* `Domain`, `Results`, `Tables`: addresses, replies, the tables of `internal/db/migrations/001_initial.sql` as maps and
  the effect of every SQL statement on them.
* `Health`, `Attempts`: the failure tracker (a class with a ghost history of the calls made on it) and the bounded
  retry loop around one provider call.
* `Pool`, `PoolInvariant`, `PoolRuns`: feeder, workers and collector of one batch as a transition system in which
  every channel operation, semaphore operation, provider call and health call is a step of its own. Replies are
  arbitrary and a cancellation can come at any time.
* `PoolHealth`, `PoolTallies`, `PoolAnswers`, `PoolBatch`: what the pool tells the health book, read off the replies;
  that nothing told is lost; that the answers do not depend on the interleaving; and the batch as a whole.
* `Protocol`, `ProtocolInvariant`, `ProtocolPast`, `ProtocolSteps`, `ProtocolSafety`, `ProtocolMoves`, `ProtocolCounts`,
  `ProtocolCoverage`, `ProtocolHealth`, `ProtocolRetention`, `QueueHistory`: the whole system as a transition system
  over the tables, the program counter of the scanner and the scanner object with its configuration and health book.
  Imports, cleanups, retry writes and crashes interleave with every step of the scanner. A batch can end with exactly
  the results and the health book that some complete schedule of `Pool` ends with. A ghost ledger per run keeps the
  provider answers of every address whose batch was counted. The main theorems speak of every sequence of events from
  the empty database.
* `Store`, `Scanner`: the imperative program. Each `Store` method is one statement or transaction; before it acts the
  other processes may act any number of times, and it may fail with or without having taken effect. The class keeps
  the ghost trace of events that explains its tables, so every theorem of the protocol holds of it. `Scanner` is the
  scan loop, the write-out of a batch and the run itself on top of it.
* `ImportLaws`, `FindingLaws`, `Operators`, `Importer`: address import, the findings transaction, the two operator
  loops, the parser of the address file.
* `LostFindings`, `LossExample`: when the retry tool loses a positive balance, for how long, and a history in which
  it does.
* `LimiterSpec`, `LimiterLaws`, `InFlight`, `Clients`: the limiter as a pure state machine and its arithmetic, the
  mutable limiter object proved against it, and its two clients. A token stands for the release function a caller is
  given; its owner is that caller.
* `Decimal`: the exact printer of atomic amounts, with a reader that is its inverse.

Some predicates are folded behind a quantifier over a term `Looking(depth)`. They mean the body of the quantifier;
the folding only keeps that body out of proofs that do not need it.

## What is assumed

* One scanner process. Each run has a scanner of its own, built when the command starts
  (`cmd/wallet-scan/main.go:317-324`); where a theorem needs that, it says `FreshStarts`. Import transactions are serial,
  so ids become visible in the order they are allocated; conflicting and rolled-back inserts use up serial values.
* Each store call is one atomic statement or transaction, including the two reads of `UnscannedRange`. A failed store
  call ends the scanner process, with or without the effect of the call.
* Providers answer anything: any balance, any classified or unclassified error, after any delay. Where a program asks
  them, what they reply is a parameter, and so is the time it reads from the store. Failed store calls are counted.
* The configured batch size, worker count and failure threshold are at least one, as `internal/config/config.go`
  enforces, and semaphore sizes are, as `internal/scanner/scanner.go:39-49` makes them; the maximum number of retries
  is any natural number.
* The clock never runs backwards and a sleep lasts at least as long as requested.
* A sequence of limiter events uses each grant as the two clients do: released once, for the chain acquired.

## What turned out not to hold

* Positive findings are retained (`README.md:131`): `RetryFailed` closes the queue entry before it saves the finding.
  A process that stops between the two writes has lost the balance, unless the table already held that very amount,
  and at no other point (`LostFindings.PositiveIsLostExactlyBetweenWrites`, for every reachable state and every prefix
  of the writes; `Operators.RetryTool.Settle` proves that the program makes just these writes in this order). It is lost
  also where an older finding with another amount stays in the table. `LossExample.LossHappens` is a history from the
  empty database in which it happens, for every usual configuration. Once the scan has passed the address, the amount
  stays missing, and no later pass rechecks the entry, until an error is recorded for the entry again or that very
  amount is saved; the address itself survives cleanup (`LostFindings.LossIsPermanent`).
* The number of calls in flight stays within the limit: a limit that has just been halved can fall below it. Exactly
  when is stated by `LimiterLaws.GlobalOverrunIff` and `LimiterLaws.ChainOverrunIff`, and `LimiterLaws.OverrunHappens`
  is a history of the two clients that gets there on any chain. The number never exceeds the hard cap
  (`LimiterLaws.EveryHistoryIsSafe`), and it does not grow until it is below the limit again
  (`LimiterLaws.OverloadNeverGrows`).

A limit of a function that the program does not reach: `formatAtomic` prints no number for a negative amount with at
most as many digits as decimals (`Decimal.DisplayOfADebt`). `Decimal.DisplayIsRightIff` gives the exact condition. The
schema admits positive findings only, for which the display is exact.

## Model

| member | source | states |
|---|---|---|
| `ProtocolSafety.EveryRunKeepsInv` | internal/scanner/scanner.go:52-181 | after every sequence of imports, scan steps, crashes, retries and cleanups the tables, the ledgers and the scanner's locals are consistent |
| `ProtocolSafety.StepKeepsInv` | internal/scanner/scanner.go:117-181 | no single event, wherever it happens, breaks that consistency |
| `ProtocolSafety.DeletedAddressWasEmpty` | internal/maintenance/cleanup.go:17-49 | a deleted address had a non-positive balance on every chain of its type, in a batch that a completed run counted |
| `ProtocolSafety.ErrorsAndPositivesBlockCleanup` | internal/maintenance/cleanup.go:21-36 | an address with an error or a positive balance among its counted answers still has its row and a blocking row, and is no candidate for deletion at any cutoff |
| `ProtocolSafety.RunsPartitionIds` | internal/db/store.go:131-171 | run ranges are disjoint and increasing, only the last run can be active, cursors stay in range, and every row lies in a range or above all of them |
| `ProtocolSafety.CursorNeverMovesBack` | internal/db/store.go:200-228 | no event moves a cursor back, changes a range or reopens a completed run; only the batch update moves a cursor forward |
| `ProtocolSafety.ScannerIsNeverBlocked` | internal/scanner/scanner.go:52-181 | after every history the scanner's program has an enabled next step: no write is rejected, and every batch that has been fetched can be checked to its end |
| `ProtocolSafety.NextWriteIsPermitted` | internal/db/migrations/001_initial.sql:27-59 | foreign keys and check constraints never reject a write of a batch, even with a cleaner running alongside |
| `ProtocolSafety.NoAdvanceWhileSick` | internal/scanner/scanner.go:169-179 | in every history, wherever a cursor moves, the failure counts of the health book leave no chain unhealthy that was not so when the run began, and none at all if each run has a fresh scanner; so a batch that leaves a chain unhealthy is never counted |
| `ProtocolRetention.RetentionIsHonoured` | internal/maintenance/cleanup.go:24-36 | a deleted address was covered by a run that an earlier event completed before the cutoff, and had neither a finding nor a queue entry |
| `ProtocolRetention.OnlyCompletionCompletes` | internal/db/store.go:213-216 | a run becomes completed only by its completing update, at the recorded time, and never changes afterwards |
| `ProtocolCounts.ProcessedCountIsExact` | internal/db/store.go:200-216 | whatever the pauses and crashes, processed_count is the number of addresses up to the cursor, each counted exactly once; an active run has lost none and a completed one has reached its end |
| `ProtocolCounts.CountersAreConserved` | internal/scanner/scanner.go:129-179 | the counters of a run are the numbers of its counted addresses, of positive balances, of errors and of addresses with neither among the answers in its ledger; with the balances that are not positive they add up to the chains of the addresses |
| `ProtocolCoverage.PlanIsComplete` | internal/db/store.go:131-144 | a plan is a range from the first to the last row above all runs that holds every such row; there is nothing to do only if no row lies above them |
| `ProtocolCoverage.EveryRunWasPlanned` | internal/db/store.go:131-171 | in every history each run has the range of a plan made before it |
| `ProtocolCoverage.EveryPlannedAddressIsScanned` | internal/scanner/scanner.go:117-181 | in every history, when a run is completed every address that was there at its plan, deleted since or not, has been counted by a completed run over its id |
| `ProtocolHealth.BookIsReplayed` | internal/scanner/scanner.go:264-283 | in every history the health book of a run is the replay of the successes, failures and alerts of its batches, from the book it began with |
| `ProtocolHealth.PauseIsJustified` | internal/scanner/scanner.go:169-176 | in every history a batch asks for a pause only if, when one of its checks failed, the failures on the chain since its last success had reached the threshold |
| `QueueHistory.EntryIsHistory` | internal/db/store.go:544-559 | in every history a queue entry exists iff an error was recorded for it, shows the last error, counts them all, is due the base delay after the last, and is resolved iff it was closed since |
| `QueueHistory.EntriesAreNumbered` | internal/db/store.go:544-553 | in every history the entries are numbered in the order in which they were first recorded |
| `QueueHistory.ErrorsAreQueued` | internal/scanner/scanner.go:129-145 | the writes of a batch leave an entry with each of its errors, due at the time given and open unless the address is invalid for good |
| `QueueHistory.AlertsAreRecorded` | internal/scanner/scanner.go:146-160 | the writes of a batch leave an incident and a notice for each of its alerts, in order |
| `ProtocolSteps.ImportKeepsInv` | internal/db/store.go:77-116 | an import at any moment of a scan leaves its ranges, counts and ledgers intact |
| `ProtocolSteps.SweepKeepsInv` | internal/maintenance/cleanup.go:17-49 | a cleanup at any moment, even in the middle of a batch, leaves the scan consistent |
| `ProtocolPast.EligibleIsVindicated` | internal/maintenance/cleanup.go:21-36 | the cleaner's query selects only addresses whose counted answers were all non-positive, below every active range |
| `ProtocolSteps.AdvanceKeepsInv` | internal/db/store.go:200-210 | moving cursor and counters over a written batch keeps all ledgers exact |
| `ProtocolSteps.CompleteKeepsInv` | internal/db/store.go:213-216 | an empty page means that the cursor has reached the end of the range |
| `ProtocolSteps.CreateKeepsInv` | internal/db/store.go:162-171 | a new run starts above all earlier ones and leaves no row between |
| `ProtocolSteps.PlanKeepsInv` | internal/db/store.go:131-144 | planning keeps the invariant; that the plan is complete is `ProtocolCoverage.PlanIsComplete` |
| `ProtocolInvariant.FetchedBatchIsOk` | internal/db/store.go:174-197 | a page holds every row between the cursor and its last id, as it is stored, in order and within the limit; a page below the limit holds all that are left, and an empty one means none is left |
| `ProtocolInvariant.WritesBlock` | internal/scanner/scanner.go:129-168 | once the writes of a batch are made, every error of it has a queue entry and every positive balance a finding |
| `ProtocolInvariant.ResultsMatchBatch` | internal/scanner/scanner.go:205-235 | results in any completion order still cover each address of the page exactly once |
| `PoolInvariant.StepKeepsInv` | internal/scanner/scanner.go:205-298 | no step of feeder, worker or collector loses or doubles an address, miscounts a semaphore, closes a channel early or forgets an unhealthy chain |
| `PoolRuns.NeverDeadlocks` | internal/scanner/scanner.go:205-235 | until the batch is done some step other than a cancellation is possible |
| `PoolRuns.NoSendAfterClose` | internal/scanner/scanner.go:205-235 | nothing is sent on a closed channel |
| `PoolRuns.StepIsLighter` | internal/scanner/scanner.go:205-298 | every step uses up part of a bound fixed at the start, so every schedule ends |
| `PoolRuns.EveryScheduleIsSafe` | internal/scanner/scanner.go:205-298 | the invariant holds along every interleaving, whose length is bounded in advance |
| `PoolRuns.EveryMaximalScheduleCompletes` | internal/scanner/scanner.go:205-235 | every schedule that cannot go on has answered each address once, on every chain of its type, with all slots free; without a request to pause no chain has become unhealthy |
| `PoolRuns.DoneMeansComplete` | internal/scanner/scanner.go:205-255 | the collected results are a permutation of the batch, fully answered; if none asks for a pause no chain is newly unhealthy |
| `PoolRuns.CallsStayWithinSemaphore` | internal/scanner/scanner.go:264-276 | the calls in flight on a chain never exceed its semaphore size |
| `PoolRuns.OutcomeIsComplete` | internal/scanner/scanner.go:205-255 | whatever results and health book a batch can end with, the results answer each address once and an unhealthy chain was unhealthy before or made a result ask for a pause |
| `PoolRuns.SomeOutcome` | internal/scanner/scanner.go:205-235 | from any health book every batch can be checked to its end |
| `PoolHealth.EveryScheduleIsLogged` | internal/scanner/scanner.go:237-298 | along every schedule the health book is the replay of a log read off the replies: a success for a balance, a failure for a permanent error or the last temporary one; every pause and every alert of a result has its cause in the log, with the failures counted there |
| `PoolTallies.DoneCounts` | internal/scanner/scanner.go:237-298 | when a batch is done its log has one success for each balance and one alert taken for each alert of the results |
| `PoolAnswers.EveryScheduleFits` | internal/scanner/scanner.go:205-298 | given the providers' replies, whatever the interleaving each answer is what the attempts for its chain come to on their own, unless the batch is cancelled |
| `PoolBatch.ProcessBatch` | internal/scanner/scanner.go:205-235 | the batch ends under any scheduler with one complete result per address whose answers are what its providers' replies come to; the health book is the replay of a log in which every pause has its cause, with the successes and alerts of the results |
| `Attempts.CheckWithRetry` | internal/scanner/scanner.go:264-298 | unless cancelled the answer is what the provider's replies come to (the first that is a balance, a permanent error or the last allowed); at most MaxRetries + 1 calls, repeated only after a temporary error and a wait of what the provider asks for or else the doubled base delay, semaphore balanced on every exit, exactly one health event unless cancelled and none if cancelled, own waits bounded, final return never reached |
| `Attempts.OwnWaitsBounded` | internal/scanner/scanner.go:285-294 | the waits the scanner chooses itself total at most baseDelay * (2^n - 1) after n replies |
| `Results.AnswerKeepsWellFormed` | internal/scanner/scanner.go:237-262 | the findings and errors collected for an address are exactly what its answers dictate |
| `Results.AnswersAreConserved` | internal/scanner/scanner.go:237-262 | each answered chain is counted as a finding, an error or an empty balance, and only once |
| `Results.AnswerIsListed` | internal/scanner/scanner.go:237-262 | every error and every positive balance appears in its list |
| `Health.HealthTracker.Failure` | internal/scanner/health.go:24-33 | one more failure, unhealthy from the threshold on |
| `Health.HealthTracker.Success` | internal/scanner/health.go:36-45 | the chain starts afresh and a recovery is reported |
| `Health.HealthTracker.IsUnhealthy` | internal/scanner/health.go:48-52 | reports the state and changes none |
| `Health.HealthTracker.TakeAlert` | internal/scanner/health.go:55-64 | hands out the alert when one is due and marks it as sent |
| `Health.CounterIsTrailingRun` | internal/scanner/health.go:24-52 | for every history from any book the counter is the length of the trailing run of failures, with those of the book if there was no success, and the chain is unhealthy iff a failure reached the threshold since its last success or it was so at the start |
| `Health.AlertHoldsUntilSuccess` | internal/scanner/health.go:55-64 | after an alert nothing but a success makes another possible |
| `Health.OneAlertPerEpisode` | internal/scanner/health.go:55-64 | between two alerts of a chain lies a success, and a full run of failures raised the second |
| `Store.Store.Safe` | internal/db/store.go:131-228 | every state the program reaches satisfies the invariant of the protocol |
| `Store.Store.ActiveScan` | internal/db/store.go:147-159 | the call finds the run to continue, or the scanner is lost at a point that the protocol explains |
| `Store.Store.ResumeScan` | internal/db/store.go:219-222 | a paused run continues from its own cursor |
| `Store.Store.UnscannedRange` | internal/db/store.go:131-144 | a range that holds every row above the runs, beginning and ending with one, and reaches beyond every address ever stored; or none, and then every stored address has been scanned |
| `Store.Store.CompletedIsThorough` | internal/scanner/scanner.go:117-181 | once the program has completed its last run, every address that was there at the plan of that run has been scanned |
| `Store.Store.CreateScan` | internal/db/store.go:162-171 | the new run begins before its first row |
| `Store.Store.NextAddresses` | internal/db/store.go:174-197 | a non-empty page lies beyond the cursor and within the range |
| `Store.Store.AdvanceScan` | internal/db/store.go:200-210 | a written batch that asks for no pause is counted in one update |
| `Store.Store.CompleteScan` | internal/db/store.go:213-216 | after completion no run is active |
| `Store.Store.PauseScan` | internal/db/store.go:225-228 | the run is paused at the cursor it had before the batch |
| `Store.Store.RecordRetry` | internal/db/store.go:544-553 | one permitted write of the batch, made once or lost with the process |
| `Store.Store.CloseRetry` | internal/db/store.go:556-559 | one write of the batch, made once or lost with the process |
| `Store.Store.CreateNodeIncident` | internal/db/store.go:393-399 | one write of the batch, made once or lost with the process |
| `Store.Store.CreateNodeNotificationEvent` | internal/db/store.go:402-408 | one write of the batch, made once or lost with the process |
| `Store.Store.Upserted` | internal/db/store.go:296-355 | the row-by-row loop computes the specified transaction |
| `Store.Store.SavePositiveFindings` | internal/db/store.go:296-355 | the whole transaction of an address is made once or lost with the process |
| `Store.Store.InsertAddresses` | internal/db/store.go:66-116 | the ids and the reported number of new rows are those of the import; a failed call leaves the table as it was or fully imported |
| `Store.Store.DeleteCandidates` | internal/maintenance/cleanup.go:21-48 | the ids returned are the rows deleted |
| `Store.Store.CountedWhileHealthy` | internal/scanner/scanner.go:169-179 | at every batch the program ever counted, no chain was newly unhealthy, also in runs that later paused or were lost |
| `Store.Store.Commit` | internal/scanner/scanner.go:129-168 | the due write of a batch is permitted, and made once or lost with the process |
| `ProtocolMoves.WrittenBatchCounts` | internal/scanner/scanner.go:169-179 | the cursor update of a batch always meets its run and its ledger |
| `ProtocolMoves.PausingKeepsCursor` | internal/db/store.go:225-228 | pausing leaves the cursor before the batch |
| `ProtocolMoves.CompletingLeavesNone` | internal/db/store.go:213-216 | completing the active run leaves no run active |
| `Scanner.Scanner.WriteBatch` | internal/scanner/scanner.go:129-168 | the loop makes every write of every result in order, or the process is lost, and its counters are those of the batch |
| `Scanner.Scanner.Close` | internal/scanner/scanner.go:169-179 | a batch with a pause request leaves the cursor where it was; otherwise the cursor moves to the last id of the page |
| `Scanner.Scanner.Page` | internal/scanner/scanner.go:117-181 | a page moves the cursor forward within the run, or stops it finished, paused or lost; unless it stops paused or lost no chain has fallen ill |
| `Scanner.Scanner.Open` | internal/scanner/scanner.go:57-69 | without an active run the scanner opens one that ends beyond every address stored so far, finds that all of them have been scanned, or is lost |
| `Scanner.Scanner.Run` | internal/scanner/scanner.go:117-181 | a run walks to its end and stops finished, paused or lost; if it was not stopped no chain has fallen ill on the way |
| `Scanner.Scanner.RunOnce` | internal/scanner/scanner.go:52-76 | ends with all runs completed, nothing to do, a paused run or, exactly if a store call failed, a lost call, in a state that the protocol reaches; finishing with no run active before means that every address there was at the call has been scanned, and nothing to do that every stored address has |
| `Operators.NextRetries` | internal/db/store.go:562-581 | the ready entries with the least serial numbers, in order, none twice, all of them if fewer than the limit |
| `Operators.RetryTool.Settle` | internal/scanner/scanner.go:92-110 | the writes made are the first ones of: record the error; or close the entry and then, if the balance is positive, save it; in this order, each once, and all of them unless a call fails |
| `Operators.RetryTool.RetryFailed` | internal/scanner/scanner.go:79-115 | exactly if no store call fails the pass handles the whole page of least ready entries: each with a provider is closed on a balance, a positive amount being held, or counts one more attempt with the error of the answer and is put off by the base delay; the answers are what the providers' replies come to, or errors of cancelled checks; no finding changes but to an amount some answer reported; if a call fails this holds of the entries before, and the one being settled has lost a positive answer iff one of its two writes was made and the amount was not held |
| `Operators.ForgottenIff` | internal/scanner/scanner.go:97-103 | after a prefix of the writes that settle a positive answer, its entry is closed without its amount being held iff the prefix has length one and the table did not hold that amount before |
| `LostFindings.PositiveIsLostExactlyBetweenWrites` | internal/scanner/scanner.go:97-103 | after every history with an unresolved entry, every prefix of the tool's writes is possible, and the positive answer is lost iff the process stops after the first of the two and the table did not already hold its amount |
| `LossExample.LossHappens` | internal/scanner/scanner.go:79-115 | for every configuration with a limited bitcoin provider and a threshold above one, every permanent error and every positive answer: a history from the empty database, with a complete pool schedule for its batch, that loses the answer of an address the scan has passed |
| `LostFindings.ScanLeavesItAlone` | internal/scanner/scanner.go:129-168 | a scan never again records an error or saves a finding for an address that some run's cursor has passed |
| `LostFindings.LossIsPermanent` | internal/scanner/scanner.go:79-115 | whatever happens afterwards short of a new error for the entry or a save of that very amount, the amount stays missing, no pass selects the entry, and the address keeps its row and is not eligible for deletion |
| `Operators.RetryUntilDone` | cmd/wallet-scan/main.go:246-281 | the loop is a chain of full passes, each but a last stuck one closing something; it ends with no unresolved entry, or after a pass that closed nothing, with or without a ready entry left, or exactly if a store call failed; over all passes every entry closed had a balance and every positive amount is held, but for at most the one being settled when a call failed, and no finding changes but to a reported amount |
| `Operators.RefusedIsPutOff` | cmd/wallet-scan/main.go:246-281 | an entry is ready at the last look after a pass that closed nothing only if it has no provider, the base delay is over, it was not due at the pass, or it did not fit on the page |
| `Operators.DelayedLoopIsQuiet` | cmd/wallet-scan/main.go:246-281 | if the last pass rechecked every unresolved entry and the last look comes before the base delay is over, the loop does not complain of missing progress |
| `Operators.Cleaner.Run` | internal/maintenance/cleanup.go:17-49 | deletes at most the batch size, only eligible rows, and reports their number; none deleted means none is eligible; it fails exactly if the batch size is below one or the store call fails |
| `Operators.EligibilityAfterDelete` | internal/maintenance/cleanup.go:21-36 | deleting eligible rows changes the eligibility of no other |
| `Operators.CleanUp` | cmd/wallet-scan/main.go:365-377 | the loop ends, and unless the batch size is below one or a store call fails a row is still there iff no completed run over its id is older than the cutoff or it has a finding or a queue entry |
| `Tables.SelectIsPage` | internal/db/store.go:174-197 | a page is ascending, bounded and skips no id up to its last one |
| `Tables.ActiveScan` | internal/db/store.go:147-159 | the first run that is running or paused |
| `ImportLaws.IdsAreAligned` | internal/db/store.go:77-116 | the i-th id returned is the one stored under the i-th identity, and nothing stored before changes |
| `ImportLaws.IdsFollowIdentity` | internal/db/store.go:77-116 | equal identities get equal ids and distinct ones distinct ids |
| `ImportLaws.FirstOccurrenceIsStored` | internal/db/store.go:88-103 | the row stored for a new identity is its first occurrence in the input |
| `ImportLaws.ReimportIsIdempotent` | internal/db/store.go:77-116 | importing the same rows again inserts none and returns the same ids |
| `FindingLaws.UpsertIsOneUpdate` | internal/db/store.go:296-355 | for distinct keys the transaction is one map update |
| `FindingLaws.EventIffChanged` | internal/db/store.go:296-355 | exactly one event iff some balance is new or different, pointing at the first such finding, and a first sighting iff some row was created |
| `FindingLaws.ReplayChangesNothing` | internal/db/store.go:296-355 | saving the same findings again after a crash changes nothing and creates no event |
| `Importer.ParseCSV` | internal/importer/importer.go:17-60 | keeps exactly the first occurrence of each identity, in order; otherwise reports the first bad line with its number and reason |
| `Importer.RowIsOfFields` | internal/importer/importer.go:33-51 | a row takes text and label from the trimmed fields and its type from the first field in any case; the identity text is the trimmed address, in lower case for evm only |
| `Importer.ValidLineIsGood` | internal/importer/importer.go:33-51 | a line of two or three fields with a known type in any case and a valid address is accepted |
| `Importer.BadLineIff` | internal/importer/importer.go:36-51 | which fields a line has when it is bad for each of the reasons |
| `Importer.LinesAgreeIff` | internal/importer/importer.go:63-91 | two lines name one address iff they are of one type and their trimmed addresses agree, for evm up to the case of letters |
| `Importer.RespelledLineIsDropped` | internal/importer/importer.go:52-57 | a later evm line with the same address in another case is dropped |
| `Importer.TrimTakesSpaceOnly` | internal/importer/importer.go:33-51 | trimming takes the space off both ends and nothing else |
| `Importer.KeptRowsAreDetermined` | internal/importer/importer.go:27-58 | keeping the first occurrences in order determines the output |
| `Importer.KeptRowsCoverOnce` | internal/importer/importer.go:52-57 | no identity is kept twice and none is lost |
| `Importer.SeenKeyIsIdentity` | internal/importer/importer.go:52-52 | the key string stands for the pair of type and normalised address |
| `Importer.NormalizingIsIdempotent` | internal/importer/importer.go:63-91 | a normalised address is valid and normalises to itself |
| `Importer.DroppingDuplicatesIsInvisible` | internal/importer/importer.go:52-57 | the table after importing the kept rows has the same identities and contents as if every line had been inserted |
| `LimiterSpec.TakeKeepsInv` | internal/adaptive/limiter.go:99-105 | a grant keeps the counts equal to the outstanding tokens and below the hard cap |
| `LimiterSpec.ReleaseKeepsInv` | internal/adaptive/limiter.go:130-183 | a release of an outstanding grant lowers the global count by one and its chain's by one, and all limits stay within [1, max] |
| `LimiterSpec.HeldTokenIsCounted` | internal/adaptive/limiter.go:134-139 | the guards against negative counts never fire |
| `LimiterSpec.GlobalIsSumOfChains` | internal/adaptive/limiter.go:96-144 | the global count is the sum of the chain counts and the number of outstanding grants |
| `LimiterLaws.EveryHistoryIsSafe` | internal/adaptive/limiter.go:96-209 | all of this holds after every history of the clients |
| `LimiterLaws.OverloadNeverGrows` | internal/adaptive/limiter.go:96-105 | at or above the limit no step raises the number of calls in flight |
| `LimiterLaws.GlobalOverrunIff` | internal/adaptive/limiter.go:130-183 | one step leads from within the global limit beyond it iff it is a release at which an adjustment is due, the limit is halved, and the half is below what stays in flight |
| `LimiterLaws.ChainOverrunIff` | internal/adaptive/limiter.go:130-183 | the same for the calls and the limit of one chain |
| `LimiterLaws.OverrunHappens` | internal/adaptive/limiter.go:158-166 | a history on any chain after which two calls are in flight at a limit of one, globally and on the chain |
| `LimiterLaws.ReleaseAdjusts` | internal/adaptive/limiter.go:146-183 | a release after ten samples and an interval halves the limit, but not below one, after a failure or a latency beyond twice the target, raises it by a fifth, at least by one and at most to the maximum, without failures and within the target, and leaves it otherwise; globally and on its chain, and no other chain changes |
| `LimiterLaws.AdjustmentsAddUp` | internal/adaptive/limiter.go:130-183 | over every history whose due releases are all calm, or all strained, the global limit has moved once for each of them |
| `LimiterLaws.CalmHistoryRestoresMax` | internal/adaptive/limiter.go:167-175 | 5n calm adjustments in a history bring the limit to the maximum once 2^n covers the ratio |
| `LimiterLaws.StrainedHistoryHalves` | internal/adaptive/limiter.go:162-166 | k strained adjustments in a history leave exactly max(1, L / 2^k) |
| `LimiterLaws.LimitRecovers` | internal/adaptive/limiter.go:130-183 | from every idle limiter without strain there is a history that brings its limit back to the maximum |
| `LimiterLaws.AdjustmentsArePaced` | internal/adaptive/limiter.go:130-183 | with A global adjustments among N releases in a time D: 10A + samples <= N, A * interval <= D, and the limit stays within a factor 2^A of its start |
| `LimiterLaws.EwmaStaysBetween` | internal/adaptive/limiter.go:151-155 | the integer average stays between the least and the greatest sample |
| `LimiterLaws.GoodSampleCutsExcess` | internal/adaptive/limiter.go:151-155 | a sample within the target cuts any excess to at most four fifths |
| `LimiterLaws.GoodSamplesRemoveExcess` | internal/adaptive/limiter.go:151-155 | finitely many good samples remove any excess, and it does not return |
| `InFlight.Limiter.constructor` | internal/adaptive/limiter.go:63-92 | a new limiter is the clamped and defaulted state of the specification |
| `LimiterLaws.SettingsAreTaken` | internal/adaptive/limiter.go:63-92 | a setting in range is taken as it is, one out of range is clamped or replaced by its default |
| `InFlight.Limiter.Register` | internal/adaptive/limiter.go:204-209 | a registered chain starts at the current global limit; nothing else changes |
| `InFlight.Limiter.TryAcquire` | internal/adaptive/limiter.go:99-109 | grants iff both the global and the chain limit have room, with a fresh token |
| `InFlight.Limiter.AdjustGauge` | internal/adaptive/limiter.go:158-183 | a limit is adapted only when ten samples and the interval have passed: halved, but not below one, after a failure or a latency beyond twice the target, raised by a fifth, at least by one and at most to the maximum, without failures and within the target, and left in between; the two copies of the global limit stay equal |
| `InFlight.Limiter.Release` | internal/adaptive/limiter.go:130-144 | the release step of the specification, for an outstanding grant: one call fewer, and the global limit and that of the chain adjusted rightly |
| `InFlight.Limiter.RetryAfter` | internal/adaptive/limiter.go:194-202 | every refusal advises a quarter of a second |
| `InFlight.Limiter.Acquire` | internal/adaptive/limiter.go:96-128 | at most ceil(queueWait / 10 ms) + 1 checks, a refusal only after a logged check that saw a full limit and with nothing in hand, a grant after one that saw room, adding one fresh token to the client's hand |
| `Clients.Query` | internal/httpserver/balance.go:117-125 | the one grant is given back, found outstanding for the chain it was acquired for, and the limiter is told the true outcome with a latency that covers the provider's and lies within the call |
| `Clients.AcquireAndQuery` | internal/httpserver/balance.go:112-125 | either the limiter was seen without room, or it was seen with room and has been told the outcome of the query; the client's grants are as before |
| `Clients.ChainNamesDiffer` | internal/adaptive/limiter.go:185-192 | no two chains share a gauge |
| `Clients.HandleBalance` | internal/httpserver/balance.go:97-155 | the provider's answer is conveyed iff it is configured and the limiter had room: a balance iff the provider gave one, a failure with its code and provider, and the wait it asks for or else a second iff it is temporary; a refusal for capacity follows a check that saw a full limit; on every exit the client holds exactly the grants it came with |
| `Clients.Check` | internal/startupcheck/check.go:102-156 | the record meets the schema and is explained: by the configuration, by a check that saw a full limit, or by the provider's answer, which is recorded as a balance iff it is usable; on every exit the client holds exactly the grants it came with |
| `Clients.DurationMillis` | internal/startupcheck/check.go:158-167 | no wait stays none; a positive wait is at least one millisecond and otherwise rounded down |
| `Clients.TargetsAreComplete` | internal/startupcheck/check.go:73-80 | the six targets are every chain of every stored address, none twice |
| `Clients.CheckAll` | internal/startupcheck/check.go:81-90 | each target's record, explained in the same way by what its own provider did, is written at its own place, in whatever order the checks finish |
| `Clients.SaveAll` | internal/startupcheck/check.go:92-100 | every record is offered to the store: it is there iff its call took effect, and success is reported iff all calls succeeded |
| `Clients.RunOnce` | internal/startupcheck/check.go:65-100 | every stored record keeps to the schema and is explained by the configuration, a full limiter or what its provider did; a target has its record iff its store call took effect, and on success every chain of every address has one |
| `Decimal.DisplayIff` | internal/notifications/wecom.go:67-82 | a text is the display of a natural number iff it has no superfluous zeros, at most the given decimals, and is read as that number |
| `Decimal.CanonicalIsDisplayed` | internal/notifications/wecom.go:67-82 | every text without superfluous zeros and with at most the given decimals is the display of the number it is read as |
| `Decimal.DisplayIsInjective` | internal/notifications/wecom.go:67-82 | two amounts never share a display |
| `Decimal.DisplayIsRightIff` | internal/notifications/wecom.go:67-82 | the display of any integer denotes it iff it is not negative or at most -10^decimals |
| `Decimal.DisplayOfADebt` | internal/notifications/wecom.go:67-82 | -5 with the decimals of bitcoin would be displayed as 0.000000-5, which is no number |
| `Decimal.ReadingIsScaling` | internal/notifications/wecom.go:67-82 | what the reader's result means: whole part and fraction at their powers of ten |
| `Decimal.FindingDisplayIsExact` | internal/notifications/wecom.go:46-65 | the display of a stored finding in the decimals of its chain determines the stored amount |
| `Decimal.OneCoinIsOne` | internal/notifications/wecom.go:46-65 | the units that make one coin of a chain are displayed as one |

## Left out

* The provider clients, HTTP handling, JSON, status codes, the API key, configuration and command-line parsing, text output and status export: plumbing around the modelled steps. A provider is an arbitrary oracle.
* PostgreSQL itself: only the effect of each statement and the constraints of the schema are modelled; an amount too large for its column is a failed store call.
* Wallet generation; the startup check starts from the ids of the four stored addresses.
* Delivery of notifications and its back-off: `Notifier.Deliver` does not touch scan state. Events and incidents are appended as values, without serial ids.
* CSV lexing: the parser starts from records split into fields, or an unreadable record. Text is a sequence of Unicode characters; invalid UTF-8 is not modelled.
* Chains and address types are enumerations, as the schema's constraints make them; the default branches of `chainsFor` and `chainUnits` and the unused run status "failed" are not modelled.
* Overflow of 64-bit counters and durations, provider panics, several scanner processes and concurrent import transactions.
* The table of startup balance checks is not part of the protocol's tables: its rows go with their address and block nothing.
* `Pool`: the worker pool is a transition system over values, since goroutines and channels have no counterpart in Dafny; `PoolBatch.ProcessBatch` runs it under an arbitrary scheduler.
* `InFlight.Limiter`: gauges are values in a map instead of pointers, so aliasing between a gauge and the map is not modelled; the snapshot for the status page is left out.
* FindingLaws.UpsertIsOneUpdate: stated for distinct keys; the scanner saves at most one finding per chain of an address, provided each provider reports its own chain.
* LimiterLaws.CalmHistoryRestoresMax: states the bound for every n with max <= 2^n * limit instead of using a logarithm.
* Operators.RetryTool.Settle: no other process acts between the two writes, so the contract can name the exact tables; `LostFindings` states the loss for histories in which anything happens before and after.
* Operators.RetryTool.RetryFailed: each store call of a pass may fail, but the pass is stated for the tool running alone. That amounts are held to its end, and the loss condition seen from its start, are stated for providers that report their own chain, as the program's do; otherwise two entries can share a finding.
* Operators.RetryUntilDone: stated for the tool running alone, as the outer loop's termination needs; draining the outbox between passes is left out.
* Operators.CleanUp: stated for the cleaner running alone, as the set of rows eligible at its start is otherwise not what it meets; `ProtocolSteps.SweepKeepsInv` covers a cleanup at any moment of a scan.
* LossExample.LossHappens: one bitcoin address and one run; the history is an example, the general statement is `LostFindings.PositiveIsLostExactlyBetweenWrites`.
