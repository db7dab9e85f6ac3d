# A verified model of the paid comparison service

The service compares two spreadsheets and hands out the result after payment.  This project models its
two cores in Dafny and proves what they are for.

**The pay-gated job pipeline.**  One shared job record is changed by an upload handler, compare-workers,
payment-workers, payment notifications and cancel requests.  Every actor reads the record once, works on
that stale copy, and later applies a closure to the record of that moment; entries may be delivered any
number of times, locks may run out, workers may crash, calls may be lost.

| file | contents |
|---|---|
| `Text`, `Domain`, `Amount` | text and white space; the job record; money as binary64 yuan and integer fen |
| `JobUpdates` | the closures, as functions and as the field assignments the program makes |
| `Pipeline` | streams, locks, handlers with program counters and stale copies: one transition system for one job |
| `Workers` | the two `Process` methods as straight-line code amid arbitrary interference: which steps of `Pipeline` they take in which case |
| `Safety`, `Service` | what holds in every reachable state with no assumption at all, and what the HTTP handlers may conclude |
| `Exclusion`, `Finality`, `Progress` | what holds under the assumptions A1; A1 and A3; A1, A2 and A3; and in fault-free runs |
| `Recovery`, `Harm` | which crashes, panics and lost calls lose no job; and that every other one may strand it |
| `Abandonment` | what becomes of a job that nobody sees to any more |
| `RedisLock`, `Timing` | the lock client; timely refreshes give A1, so A1 is a theorem about clocks |
| `JobStore` | the in-memory store, and the optimistic Redis store that refines it |
| `StreamQueue` | terminal errors, the acknowledgement rule, auto-claim |
| `Witnesses` | runs that show each of A1, A2, A3 to be needed, how crashes, panics and lost calls strand a job for good, and that jobs do get released |

The environment assumptions are explicit predicates on steps (`Pipeline.LocksHold`, `PaidAfterQuote`,
`EnqueueErrorsAreClean`): A1, a lock does not run out while its holder is in its critical section; A2, a
payment notification arrives only after a code URL was stored; A3, an enqueue error at the upload handler
means that nothing was enqueued.  The pipeline takes two things for granted that are proved one level
below: an update of the record is one atomic step (`JobStore.UpdatesAreAtomic`), and timely refreshes keep a
lock with its holder (`Timing.TimelyRunsAreLocked`).

**The keyed table diff engine.**

| file | contents |
|---|---|
| `Decimal`, `Normalize` | numerals; the normal form of a cell and its one-pass scanner |
| `Headers` | header filling and de-duplication, column union and alignment |
| `KeyGuess`, `KeyedRead` | the key column guess; the streaming keyed reader against the batch reader |
| `KeyOrder`, `Compare` | sorted key lists; the comparison of two keyed sheets |
| `Fingerprint`, `DiffMask` | FNV-1a; the 64-bit mask with its dirty list |
| `DiffWriter`, `DiffSheets` | the three sheet writers, and what the emitted sheets say |
| `Patch` | patching file 1 with the emitted sheets gives file 2 |
| `SheetName`, `Export` | sheet names; the whole export from raw rows to sheets |

The engine's modules take the cell normaliser, the fingerprint and the column score as parameters; `Export`
fixes normaliser and fingerprint to the program's own.  A text is a sequence of code points, so a length
in runes is its length; a sheet is a list of numbered rows of cells.

Where code and intention differ, the model follows the code, and says exactly when it meets the intention:

- `fail` overwrites Cancelled: `Finality.CancelledIsLeftIffFailed`, `Witnesses.CancelledMayFail`.
- The cancel answer may be wrong: `Finality.CancelAnswerHoldsIff`, `Witnesses.CancelAnswerMayBeWrong`.
- A job may be stranded by a crash, a panic, or a lost call: an entry is acknowledged whenever the job's lock
  is held, be its holder dead or the very worker of that entry, and an update that failed is acknowledged like
  one that took effect.  `Recovery.Harmless` tests every step of every actor on the state before it;
  `Recovery.NoJobIsLost` says that runs of harmless steps strand no job, and `Harm.RecoverableIsExact` that
  after any other step some run of harmless steps does.  `Witnesses` has concrete runs, and
  `Abandonment.AbandonedIsFinal` and `Abandonment.AbandonedReleaseIff` say what may still become of such a job.
- A duplicate of the notification that released a job is refused, if the record can be read, unless the order
  was for one fen: `Service.ReadyAmountCheck`.
- The in-memory store's Create overwrites a job where Redis keeps the first: `JobStore.CreatesAgreeIff`.
- De-duplicated headers may collide: `Headers.HeadersDistinctIff`, `Headers.CollisionExample`.
- A refresh with a time to live below a millisecond extends the lock to two hours:
  `RedisLock.RefreshKeepsTtl`.

Run `dafny verify dfyconfig.toml` to check everything.

## Model

| member | source | states |
|---|---|---|
| JobUpdates.JobRecord.Reset | gobackend/compare/worker.go:155-162 | "mark as processing" sets status and error unless the job is cancelled, and touches nothing else |
| JobUpdates.JobRecord.Persist | gobackend/compare/worker.go:203-210 | recording the result sets both result fields unless the job is cancelled |
| JobUpdates.JobRecord.Fail | gobackend/compare/worker.go:232-245 | `fail` overwrites status and error whatever the status was |
| JobUpdates.JobRecord.Release | gobackend/paygate/worker.go:103-117 | release of a paid job: Ready, key stored, amount, code URL and error cleared, unless cancelled |
| JobUpdates.JobRecord.ReleaseForFree | gobackend/paygate/worker.go:119-138 | free release also marks an unpaid job as paid now; a payment already recorded keeps its time |
| JobUpdates.JobRecord.Await | gobackend/paygate/worker.go:150-160 | storing an order changes nothing on a cancelled or paid job, and otherwise shows amount and code URL |
| JobUpdates.JobRecord.Confirm | gobackend/wechat/notify.go:129-155 | a payment is recorded once; with a result it releases the job, without one it leaves AwaitingPayment for Processing |
| JobUpdates.JobRecord.Cancel | gobackend/compare/service.go:337-345 | cancelling changes nothing on a paid job |
| Amount.AmountRoundTrip | gobackend/wechat/notify.go:116-122 | for 0 < n < 2^51 fen, n/100 stored and multiplied by 100 in binary64 rounds back to exactly n |
| Amount.RoundingIs | gobackend/wechat/notify.go:118-121 | the error bound is 2^-53, rounding goes to a nearest integer, halves away from zero, and an expected total is at least one |
| Amount.CheckAcceptsExactlyTheOrder | gobackend/wechat/notify.go:116-127 | the notification check accepts the total of the recorded order and no other |
| Workers.Cluster.ProcessCompare | gobackend/compare/worker.go:72-230 | amid any steps of others, the handler's own steps are: the lock call; and, if it got the lock, the critical section and the deferred release; it returns the error that decides the acknowledgement |
| Workers.Cluster.CompareCritical | gobackend/compare/worker.go:125-229 | the steps taken for each record read and each outcome of a call: nothing for a missing or ended job, hand-off with a result, `fail` without storage or inputs, the build otherwise |
| Workers.Cluster.CompareRest | gobackend/compare/worker.go:164-229 | build, persist, second read and hand-off in this order, with each failure exit |
| Workers.CompareScript | gobackend/compare/worker.go:125-229 | the compare-worker's steps in full, for each record it may read and each way its calls may turn out |
| Workers.Cluster.HandleCompare | gobackend/streamq/streamq.go:214-246 | the entry leaves the pending list exactly if the handler's error calls for an acknowledgement and that reaches the server |
| Workers.Cluster.ProcessPay | gobackend/paygate/worker.go:38-162 | the same for the payment-worker |
| Workers.Cluster.PayCritical | gobackend/paygate/worker.go:85-162 | the steps taken for each record read: nothing for an ended job or one without a result, one release if paid or free, nothing if quoted, otherwise one order and one update |
| Workers.Cluster.PayByOrder | gobackend/paygate/worker.go:145-161 | exactly one order call, then exactly one update: the order stored, or the failure |
| Workers.PayScript | gobackend/paygate/worker.go:85-162 | the payment-worker's steps in full, likewise |
| Workers.Cluster.HandlePay | gobackend/streamq/streamq.go:214-246 | the acknowledgement of a payment entry, as for a compare entry |
| Workers.RunCompareClosure | gobackend/compare/worker.go:155-210 | the compare-worker's closures, run as field assignments, are the record updates of the pipeline |
| Workers.RunPayClosure | gobackend/paygate/worker.go:103-160 | so are the payment-worker's |
| Workers.Cluster.NotifyUpdate | gobackend/wechat/notify.go:129-155 | the notification's update, run as field assignments on the record of that moment, is the step of the pipeline |
| Workers.Cluster.CancelUpdate | gobackend/compare/service.go:337-345 | so is the cancel handler's |
| Workers.Cluster.ReleasedIsPaid | gobackend/paygate/worker.go:103-138 | whatever the workers' code has done amid any interference, a Ready job is paid and has its result |
| Service.ReadyImpliesPaid | gobackend/compare/service.go:354-371 | in every reachable state, with expiring locks, crashes and lost updates: Paid iff PaidAt, Ready implies Paid and a result, and the download gate opens exactly for Ready jobs, is Gone exactly for cancelled ones and demands payment of all others |
| Service.PaymentAndResultAreWriteOnce | gobackend/wechat/notify.go:131-143 | Paid, PaidAt and the result key never change once set, over whole runs |
| Service.ReadySurvivesCancelAndOrder | gobackend/compare/service.go:337-345 | neither a cancel update nor an order update overwrites a Ready job, however stale the read before it |
| Service.AwaitingIsPayable | gobackend/paygate/worker.go:145-160 | in every reachable state an awaiting job is unpaid, has a result, a non-blank code URL and the amount of an order that was placed with that URL |
| Service.OverrideFiresIff | gobackend/compare/service.go:273-278 | the status view differs from the record exactly for a paid awaiting one with a result, and then it is Ready |
| Service.AwaitingHasNoDetour | gobackend/compare/service.go:273-278 | the override of the status view never fires, and a payment of an awaiting job releases it |
| Service.AwaitingAmountCheck | gobackend/wechat/notify.go:116-127 | an awaiting job's notification passes the amount check exactly if it pays such an order in full |
| Service.ReadyAmountCheck | gobackend/wechat/notify.go:115-127 | in every reachable state a Ready job's notification passes the amount check exactly for a total of one fen, so a duplicate of a larger payment is refused if the record can be read |
| Service.FailuresAreExplained | gobackend/compare/service.go:289-291 | in every reachable state the error of a failed job is one that occurred: storage off, an input missing, or the message of an enqueue, order or build failure of the run; other jobs in progress show none |
| Service.CreatedJob | gobackend/compare/service.go:170-182 | a new job is in progress, unpaid and without a result, with its two inputs |
| Service.CancelGoesOnIff | gobackend/compare/service.go:313-335 | in every reachable state a cancel request goes on exactly for an unpaid job that is in progress or failed, and closes the order first exactly for an awaiting one |
| Service.OrderClosedBeforeCancel | gobackend/compare/service.go:329-345 | over any run, a request that found the job awaiting payment writes only after the order was closed for it |
| Exclusion.ReachableLocked | gobackend/compare/worker.go:84-123 | under A1 whoever is in a critical section owns the stage's lock, and a compare handler that owes a result sees none stored |
| Exclusion.OneOrderPerJob | gobackend/paygate/worker.go:140-160 | under A1 with order outcomes recorded, CreateNativeOrder is called at most once per job over a whole run |
| Finality.CancelledOrFailedIsFinal | gobackend/paygate/worker.go:103-138 | under A1 and A3 no run leads from Cancelled or Failed to Processing, AwaitingPayment or Ready |
| Finality.CancelledIsLeftIffFailed | gobackend/paygate/worker.go:164-176 | a cancelled job changes its status exactly when a `fail` takes effect, and then it is Failed |
| Finality.CancelAnswerHoldsIff | gobackend/compare/service.go:337-351 | a cancel request answered "cancelled" cancels the job, over the rest of the run (as Cancelled or Failed), if its update takes effect on an unpaid record, and changes nothing otherwise |
| Finality.ReadyIsFinal | gobackend/compare/worker.go:155-162 | under A1, A2 and A3 a Ready job stays Ready, although reset, both fails and the enqueue failure never test for it |
| Finality.PaymentsAreHonoured | gobackend/wechat/notify.go:131-155 | under A1, A2 and A3, in every reachable state, a paid job is Ready or was cancelled and has its result, and a job that was ever quoted is awaiting payment, Ready or Cancelled: it never fails |
| Progress.NoJobIsStranded | gobackend/compare/worker.go:136-229 | a drained fault-free run has brought the job to Ready, Failed, Cancelled or a payable AwaitingPayment; a paid job awaits nothing |
| Progress.EveryHandlerAcknowledges | gobackend/paygate/worker.go:97-101 | in fault-free runs every handler ends with an acknowledgement and the "result not ready" branch is never taken |
| Recovery.NoJobIsLost | gobackend/streamq/streamq.go:214-291 | under A1 and A3, with crashes, panics and lost lock, read, write, enqueue, release and acknowledge calls, as long as every step is harmless (the job is created, a built result is recorded, and while the job needs a stage no dismissal on a held lock, crash, panic, lost write or failed call takes the last that would see to it): once nobody sees to the job, it is Ready, Failed, Cancelled or payable |
| Harm.RecoverableIsExact | gobackend/streamq/streamq.go:214-291 | the test is exact over runs, for every step of every actor: in any state that harmless steps have led to, a step under A1 and A3 can be followed by harmless steps only that strand the job if and only if the test rejects it |
| Recovery.EntriesKeptIff | gobackend/compare/worker.go:90-98 | for one stage: after any queue operation, such as a dismissal, crash or panic, something is left to deliver or to claim, or somebody is at work, if and only if the test before the step admits it |
| Recovery.GivingUpKeepsActive | gobackend/compare/worker.go:125-128 | and so it is for a handler that returns to keep its entry pending |
| Recovery.FaultFreeRunsAreRecoverable | gobackend/compare/worker.go:90-98 | all fault-free runs consist of harmless steps, however many duplicates they dismiss |
| Abandonment.AbandonedIsFinal | gobackend/compare/worker.go:90-98 | a job at Processing with no handler and no entry in the compare stage, and none in the payment stage or none that is past its read and no result, is never released, failed or quoted in any run if it is paid or has no result; it can only be cancelled, and not even that if paid |
| Abandonment.AbandonedReleaseIff | gobackend/wechat/notify.go:129-155 | an abandoned job can still be released exactly if it is unpaid and has a result: by a payment nobody was asked for |
| Abandonment.HonestlyAbandonedIsFinal | gobackend/wechat/notify.go:129-155 | under A1, A2 and A3 no abandoned job at Processing is ever released |
| Witnesses.WithoutA1ReadyIsLost | gobackend/compare/worker.go:155-162 | an expired lock lets a stale compare-worker reset a Ready job |
| Witnesses.WithoutA2ReadyIsLost | gobackend/paygate/worker.go:145-149 | a payment before the first quote releases a job that a failed order then fails |
| Witnesses.WithoutA3ReadyIsLost | gobackend/compare/service.go:188-193 | an enqueue that failed for the client only lets the upload handler fail a Ready job |
| Witnesses.WithoutA3FailedIsRevived | gobackend/compare/service.go:188-193 | and lets a compare-worker revive a Failed one |
| Witnesses.HonestRunsRelease | gobackend/paygate/worker.go:119-138 | the assumptions admit runs that release the job |
| Witnesses.CancelledMayFail | gobackend/compare/worker.go:232-245 | under all assumptions a cancelled job may become Failed |
| Witnesses.CrashStrandsJob | gobackend/compare/worker.go:90-98 | after a crash, a claim that meets the left-over lock is acknowledged: nobody and no entry will see to the job, which is at Processing without a result |
| Witnesses.CrashAfterDismissalStrandsJob | gobackend/compare/worker.go:95-98 | the same without a dead holder: a worker's own entry is claimed and acknowledged while it is at work, and then it crashes |
| Witnesses.FailedReadAfterDismissalStrandsJob | gobackend/compare/worker.go:125-128 | or its read fails, and it returns to keep an entry that is gone |
| Witnesses.PanicStrandsJob | gobackend/streamq/streamq.go:226-236 | a panic is acknowledged, and the job is not failed |
| Witnesses.LostFailureStrandsJob | gobackend/compare/worker.go:232-245 | a failure whose update is lost is acknowledged |
| Witnesses.UploadCrashStrandsJob | gobackend/compare/service.go:182-188 | an upload handler that dies between creating and enqueueing the job |
| Witnesses.LostUploadFailureStrandsJob | gobackend/compare/service.go:188-193 | an upload handler whose enqueue and failure record are both lost |
| Witnesses.LostResultStrandsJob | gobackend/compare/worker.go:203-229 | a result whose record is lost: the worker hands on and acknowledges all the same, and the payment entry waits for a result for ever |
| Witnesses.LostReleaseStrandsJob | gobackend/paygate/worker.go:119-138 | a release whose update is lost is acknowledged |
| Witnesses.LostOrderStrandsJob | gobackend/paygate/worker.go:145-161 | an order is placed, its code is lost, and the entry is acknowledged |
| Witnesses.LostRejectionStrandsJob | gobackend/paygate/worker.go:164-176 | so is an order failure whose record is lost |
| Witnesses.CrashIsSurvived | gobackend/paygate/worker.go:50-138 | a crash whose entry is kept is recovered from: the job is released |
| Witnesses.CancelAnswerMayBeWrong | gobackend/compare/service.go:324-351 | under all assumptions, "cancelled" may be answered for a job that is Ready |
| RedisLock.Client.Acquire | gobackend/redislock/redislock.go:48-61 | blank key or token is an error; otherwise the lock is taken iff nobody owns it, for the given or the default time, and no other key changes |
| RedisLock.Client.Refresh | gobackend/redislock/redislock.go:63-93 | only the owner's token extends the key, and the answer says whether it did |
| RedisLock.Client.Release | gobackend/redislock/redislock.go:95-117 | only the owner's token deletes the key |
| RedisLock.ExpiryTimes | gobackend/redislock/redislock.go:57-86 | a time to live of a millisecond or more is passed on in whole milliseconds, one that is not positive as two hours |
| RedisLock.LockExcludes | gobackend/redislock/redislock.go:48-117 | after an acquire that succeeded, whatever calls follow but for a release or a different refresh by the owner, nobody else's acquire succeeds within the time to live |
| RedisLock.KeysAre | gobackend/redislock/redislock.go:28-38 | the key is the prefix, or the default one, and the job's id |
| RedisLock.RefreshKeepsTtl | gobackend/redislock/redislock.go:80-86 | refreshes renew for as long as the lock was taken for, except when the time to live is positive and below a millisecond |
| RedisLock.LockKeysDistinct | gobackend/redislock/redislock.go:28-38 | lock keys of different jobs, and of the two stages, never coincide |
| RedisLock.TimelyHoldersOwnTheirKey | gobackend/redislock/redislock.go:48-117 | with refreshes less than one time to live apart, a holder owns its key from acquire to release |
| RedisLock.HeldIffTimely | gobackend/redislock/redislock.go:63-93 | a delay leaves every holder its key if and only if it is timely |
| RedisLock.OthersAreHarmless | gobackend/redislock/redislock.go:63-117 | in all runs, late ones included, nobody else's calls remove, extend or replace a live lock |
| RedisLock.LateRefreshOverlaps | gobackend/compare/worker.go:104-122 | a late refresh lets two handlers overlap |
| Timing.TimelyRunsAreLocked | gobackend/compare/worker.go:84-123 | what the pipeline sees of a run with timely refreshes meets A1 |
| Timing.TimelyHandlersAreExclusive | gobackend/compare/worker.go:84-123 | then no two handlers of one stage and job overlap |
| Timing.TimelyOneOrder | gobackend/paygate/worker.go:50-83 | and at most one order is placed |
| Timing.TimelyFinality | gobackend/paygate/worker.go:50-83 | and, with A2 and A3, Ready is final and so are Cancelled and Failed together |
| JobStore.InMemoryStore.Update | gobackend/store/compare_job_store.go:58-69 | the stored record becomes what the closure makes of it and is returned; a missing id changes nothing; no other record changes |
| JobStore.InMemoryStore.Create | gobackend/store/compare_job_store.go:39-44 | from then on the id's job is the created one, whatever was stored before, and every other id keeps its job |
| JobStore.CreatesAgreeIff | gobackend/store/compare_job_store.go:202-213 | the in-memory Create and the Redis one leave the same job exactly if there was none yet, or the very same |
| JobStore.InMemoryStore.Get | gobackend/store/compare_job_store.go:46-56 | the stored record, if any |
| JobStore.RedisRecord.Update | gobackend/store/compare_job_store.go:236-294 | the retry loop ends within eight attempts; a returned record was committed exactly once on the latest value; Missing and Exceeded leave no effect, and Exceeded means eight attempts and eight writes of others |
| JobStore.RedisRecord.Attempt | gobackend/store/compare_job_store.go:254-284 | one WATCH/GET/EXEC attempt amid others: it commits the closure on the record of that very moment, or is to be repeated because somebody else wrote in between, or ends with no commit the client knows of |
| JobStore.UpdatesAreAtomic | gobackend/store/compare_job_store.go:236-294 | for any interleaving there is a chronicle of records from the created one to the present one, each what the committed closure made of the one before; a successful call is in it exactly once, and a call that gave up, after eight attempts and eight writes of others, never |
| StreamQueue.TerminalIff | gobackend/streamq/streamq.go:17-33 | an error is terminal iff a Terminal mark stands in its chain; wrapping does not change that |
| StreamQueue.RemainingIff | gobackend/streamq/streamq.go:214-246 | an entry stays pending iff every handling of it ended in an error that is not terminal or lost its acknowledgement |
| StreamQueue.Consumer.HandleOne | gobackend/streamq/streamq.go:214-246 | malformed entries, nil and terminal errors and panics are acknowledged, other errors keep the entry, and so does an acknowledgement that fails |
| StreamQueue.Consumer.MaybeAutoClaim | gobackend/streamq/streamq.go:248-291 | at most one claim per interval; the cursor moves only to one that is not blank; afterwards an entry is pending iff it was and each claimed handling of it ended in an error that is not terminal or lost its acknowledgement |
| StreamQueue.Consumer.Turn | gobackend/streamq/streamq.go:164-203 | one turn of the consume loop: claim time, cursor, and which entries are pending after the claim and the deliveries |
| Normalize.LooksLikeIntegerFloatString | gobackend/excelcmp/normalize.go:39-73 | the one-pass scanner decides IntegerFloat |
| Normalize.ScannerAcceptsExactlyTheShape | gobackend/excelcmp/normalize.go:39-73 | it accepts exactly [+-]? digits . zeros, each such string in one way |
| Normalize.NormalizeIdempotent | gobackend/excelcmp/normalize.go:14-37 | normalising twice is normalising once |
| Normalize.IntegerFloatsAreCanonical | gobackend/excelcmp/normalize.go:14-37 | such strings within 9e15 become their integer's numeral, so two are equal iff their integers are |
| Normalize.EmptyNormalIff | gobackend/excelcmp/normalize.go:14-25 | a cell's normal form is empty iff it is blank or one of nan, nat, none in any case |
| Normalize.PlainDigitsUnchanged | gobackend/excelcmp/normalize.go:14-37 | plain digit strings keep their leading zeros |
| Normalize.PlainTextUnchanged | gobackend/excelcmp/normalize.go:36-36 | every text that is neither empty, nor a word for a missing value, nor an integer-valued decimal within 9e15 stays as it is but for the white space around it |
| Normalize.EqualCellsIff | gobackend/excelcmp/normalize.go:14-37 | two cells are equal iff both are empty, or their trimmed texts are equal, or both denote the same integer, as its numeral or as a decimal that is converted |
| Normalize.MissingWordsAre | gobackend/excelcmp/normalize.go:19-22 | the words for a missing value are nan, nat and none in upper and lower case letters |
| Normalize.ShapeDenotes | gobackend/excelcmp/normalize.go:25-34 | the integer of such a decimal is the one of the digits before the point, with the sign |
| Decimal.NumeralsAre | gobackend/excelcmp/normalize.go:32-32 | numerals are written with the ten digits, the most significant first |
| Decimal.SignedNumerals | gobackend/excelcmp/normalize.go:32-32 | a negative numeral is a minus sign and the numeral of its opposite |
| Decimal.LeadingZero | gobackend/excelcmp/normalize.go:27-34 | zeros before a number do not change its value |
| Text.TrimSpaceIs | gobackend/excelcmp/normalize.go:15-18 | trimming leaves exactly what remains without the white space at both ends, white space being the 25 code points of that Unicode property |
| Headers.NormalizeHeaders | gobackend/excelcmp/readxlsx.go:68-92 | the two loops give the filled and de-duplicated names |
| Headers.HeaderNamesAre | gobackend/excelcmp/readxlsx.go:68-92 | a column is called by its trimmed header, or "Unnamed: " and its index if that is blank, followed by "." and the number of columns before it that are called so, if there are any |
| Headers.HeadersDistinctIff | gobackend/excelcmp/readxlsx.go:77-92 | the names are pairwise distinct iff no column is already named like a repetition of another |
| Headers.NormalHeadersDistinctIff | gobackend/excelcmp/readxlsx.go:68-92 | the same for a raw header row |
| Headers.CollisionExample | gobackend/excelcmp/readxlsx.go:77-92 | "A, A, A.1" is such a case |
| Headers.OrderedUnionCols | gobackend/excelcmp/compare.go:334-369 | the loop with its seen set computes the union |
| Headers.UnionIsOrderedUnion | gobackend/excelcmp/compare.go:334-369 | for distinct headers: file 1's columns but the key in order, then those only file 2 has, each once |
| Headers.UnionKeepsOrder | gobackend/excelcmp/compare.go:334-369 | file 1's columns come first, and each file's columns keep their order |
| Headers.AlignedColumnIndices | gobackend/excelcmp/compare.go:245-261 | every compared column points to its own column, or -1 iff the file lacks it |
| Headers.EveryCellComparedOnce | gobackend/excelcmp/compare.go:245-261 | every cell outside the key column of either file is compared exactly once |
| Headers.EveryCellOfSheetsComparedOnce | gobackend/excelcmp/compare.go:245-261 | the same for two sheets whose header rows have no such column |
| KeyGuess.GuessPrimaryKeyColumn | gobackend/excelcmp/compare.go:13-90 | the scan over the first rows computes the guess |
| KeyGuess.LeaderIsLeftmostBest | gobackend/excelcmp/compare.go:13-90 | it is the leftmost eligible column of the highest score, and exists iff some column is eligible |
| KeyGuess.GuessIsLeftmostBest | gobackend/excelcmp/compare.go:13-90 | told from the rows: among the columns whose cells in the first rows (five unless told otherwise) are filled and, trimmed, pairwise distinct, the guess is the name of the leftmost one of the highest score |
| KeyedRead.LoadKeyedSheet | gobackend/excelcmp/keyedread.go:17-112 | peeking and then streaming gives what reading the whole table, guessing and indexing gives, errors included; and the loaded sheet holds what LoadedSheetHolds says of the raw rows |
| KeyedRead.LoadedSheetHolds | gobackend/excelcmp/keyedread.go:80-112 | a key is in the loaded sheet iff it is not blank and the normal form of some data row's cell in the key column; it carries the first such row, padded; the list of duplicates holds only keys that two rows share, at most ten, and all of them if fewer |
| KeyedRead.LoadOutcomes | gobackend/excelcmp/keyedread.go:33-78 | when loading gives which error, and which column is the key |
| KeyedRead.ReadTable | gobackend/excelcmp/readxlsx.go:15-66 | the batch reader: every data row at the width of the header row |
| KeyedRead.BuildKeyRowMap | gobackend/excelcmp/compare.go:263-288 | the batch index: each key that occurs, with the first of its rows |
| KeyedRead.KeyIndex.Add | gobackend/excelcmp/keyedread.go:80-98 | rows without a key are skipped, the first row of a key wins, the first ten repeated keys are listed, and nothing else changes |
| KeyedRead.IndexIsFirstWins | gobackend/excelcmp/compare.go:263-288 | the index holds exactly the keys that occur, each with its first row, and notices exactly those that recur |
| KeyedRead.ReportIsFirstTen | gobackend/excelcmp/compare.go:263-288 | the list is the first ten of the repeated keys, each once, in the order of their first repetitions |
| KeyedRead.NoReportIffKeysDistinct | gobackend/excelcmp/compare.go:263-288 | it is empty iff no two rows have cells in the key column with the same normal form, blank ones aside |
| Compare.CompareArtifactsFromMaps | gobackend/excelcmp/compare.go:135-183 | sorted key lists, union and alignment; an error iff the key is blank |
| Compare.CellsCompared | gobackend/excelcmp/compare.go:245-261 | the two cells that are compared are those of the two rows in the last column of that name, or nothing |
| KeyOrder.LessIsLexicographic | gobackend/excelcmp/compare.go:157-160 | keys are sorted like words: a prefix first, otherwise by the first difference |
| Compare.ComparisonIsDeterministic | gobackend/excelcmp/compare.go:140-166 | no map iteration order shows in the result |
| Compare.KeysArePartitioned | gobackend/excelcmp/compare.go:140-166 | reduced, increased and common keys partition the keys of both files |
| Compare.ComparisonIsSymmetric | gobackend/excelcmp/compare.go:135-183 | swapping the files swaps increase and reduction and keeps common keys and changed (key, column) pairs |
| Compare.ComparisonWithItself | gobackend/excelcmp/compare.go:135-183 | a file compared with itself has nothing to report |
| Fingerprint.Fingerprint64 | gobackend/excelcmp/compare.go:216-226 | 64-bit FNV-1a with wrap-around |
| Fingerprint.FnvExamples | gobackend/excelcmp/compare.go:216-226 | it has the published values of FNV-1a for the empty text and for "a" |
| Fingerprint.Utf8Examples | gobackend/excelcmp/compare.go:216-226 | characters of one to four bytes are encoded as UTF-8 has them |
| Fingerprint.Utf8RoundTrip | gobackend/excelcmp/compare.go:216-226 | the bytes it runs over are an encoding of the text that can be decoded |
| DiffMask.WithSetsOneBit | gobackend/excelcmp/compare.go:185-214 | setting a mask bit sets that bit and no other |
| DiffMask.Mask.Set | gobackend/excelcmp/export.go:229-242 | the dirty list keeps holding exactly the non-zero words |
| DiffMask.Mask.Reset | gobackend/excelcmp/export.go:243-248 | clearing by the dirty list clears the whole mask |
| DiffWriter.NormCache.NormalizeFP | gobackend/excelcmp/export.go:201-224 | cached or not, the answer is the normal form and its fingerprint |
| DiffWriter.CellsDiffer | gobackend/excelcmp/export.go:283-290 | fingerprints and texts together decide whether the normal forms differ |
| DiffWriter.WriteSimpleKeyedSheet | gobackend/excelcmp/export.go:136-177 | header, then one row per key on consecutive rows from a reused buffer, or the message |
| DiffWriter.WriteDiffSideBySide | gobackend/excelcmp/export.go:179-351 | the streaming writer emits what comparing every pair of cells emits, for every cache bound, fingerprint function and key list, and no row out of order |
| DiffSheets.DiffSheetRows | gobackend/excelcmp/export.go:262-351 | a header iff some common row differs, then exactly the changed keys, ascending, on consecutive rows |
| DiffSheets.HeaderRowCells | gobackend/excelcmp/export.go:251-261 | the header row: the key, then every column twice, once with each file's name in brackets |
| DiffSheets.DisplayNames | gobackend/excelcmp/export.go:192-199 | a file goes by its trimmed name, or by the fallback if that is blank |
| DiffSheets.SimpleSheetCells | gobackend/excelcmp/export.go:136-177 | the cells of the increase and reduction sheets: headers, and the rows of the keys in their order, blank cells empty |
| DiffSheets.DiffRowCells | gobackend/excelcmp/export.go:311-343 | the key, then both files' cells of every column, in the red style (if there is one) iff their normal forms differ |
| Patch.DiffThenPatchGivesFile2 | gobackend/excelcmp/export.go:136-351 | removing the reduced keys, adding the increase rows and overwriting the changed rows turns file 1 into file 2: the same keys, and every compared cell equal up to normalisation |
| SheetName.SafeSheetName | gobackend/excelcmp/sheetname.go:26-39 | trimmed, "Sheet" if empty, the seven forbidden characters replaced, cut to 31 |
| SheetName.BaseIsTitle | gobackend/excelcmp/sheetname.go:26-39 | the name is the trimmed title, character by character, with an underscore for each of the seven, up to 31 |
| SheetName.CandidatesAre | gobackend/excelcmp/sheetname.go:41-62 | later candidates are the name, cut where needed, with an underscore and their number |
| SheetName.TitleNamesStem | gobackend/excelcmp/sheetname.go:10-24 | a title names a file after its stem, wherever it lies |
| SheetName.SheetNames.UniqueSheetName | gobackend/excelcmp/sheetname.go:41-62 | the loop ends within \|used\| + 2 candidates with the first free one, and records it |
| SheetName.CandidatesDistinct | gobackend/excelcmp/sheetname.go:50-60 | suffixed candidates are pairwise distinct |
| SheetName.UniqueNameIsValid | gobackend/excelcmp/sheetname.go:26-79 | the name is new, non-empty, free of forbidden characters, and has at most 31 runes iff its number is below 10^29 |
| SheetName.BaseNameIsPlain | gobackend/excelcmp/sheetname.go:10-24 | the part of a title that names a file is never empty and has no slash unless it is one |
| Export.GenerateCompareExport | gobackend/excelcmp/export.go:14-90 | told from the raw sheets (Export.Verdict): the export reports that no column can be the key, or that the second sheet lacks it, or duplicates, exactly if two data rows share a key; otherwise it writes three sheets, named after the files, different and valid, and patching the first sheet's table with them gives the second's: the keys are exactly the non-blank normal forms in the key column, each with the cells of its first row |

## Left out

- KeyGuess.GuessPrimaryKeyColumn: how a column is scored (name keywords, shape of its values) is a function parameter, so what is proved holds of every scoring.
- Export.GenerateCompareExport: opening and creating files and the XLSX encoding are left out, so the errors of those calls are not among its reports.
- DiffWriter.WriteDiffSideBySide: the spreadsheet library's stream writer is an append-only list of numbered rows; its I/O errors are left out.
- RedisLock.Client.Acquire: a call of the lock client that fails or loses its answer is modelled in the pipeline and in the timed lock, not in the client class.
- JobStore.RedisRecord.Update: one record; JSON encoding, the two-second and four-second timeouts and expiry of records are left out, and an error of any of its calls is a possible outcome at every step.
- Workers.Cluster.ProcessCompare: downloads, conversion, comparison and upload are one action that succeeds or fails; the limit on handlers in flight is left out, and so is the branch for a missing pay queue, which is taken to be configured.
- Workers.Cluster.ProcessPay: CreateNativeOrder is any function that returns an error or a non-blank URL.
- StreamQueue.Consumer.Turn: handlers run one after the other; concurrent handlers are in the pipeline model.
- Normalize.IntegerFloatsAreCanonical: parsing a decimal of at most 2^53 with a zero fraction is taken to be exact, as section 4.3.1 of IEEE 754-2019 gives.
- Redis commands that take effect after their client has given up waiting: a lost answer is modelled, a late execution is not.
- Stream trimming and expiry of job records: entries and jobs are kept.
- Multipart upload, object storage, xls conversion, HTTP responses and environment parsing: steps that succeed or fail, or parameters.
- WeChat signing, signature verification and decryption: a verified SUCCESS notification is an input event.
- The local result-file flow (`runCompareTask`) and the table form of the comparison (`CompareArtifacts`): not used by the worker path.
