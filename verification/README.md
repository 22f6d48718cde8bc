# Invokr, verified

A Dafny model of Invokr, the PostgreSQL-backed job scheduler, and proofs about it. `dafny verify dfyconfig.toml` checks everything.

## What is modelled

**The job and execution protocol.** `Tables` holds the workspace tables of `crates/common/migrations/workspace_v1.sql`, the pg_cron entries, and the row updates of `crates/common/src/db`. `Protocol` is the service as a transition system: every worker, API handler and library cancel is an open transaction that advances one SQL statement at a time, interleaved with all others, with cron ticks, with single-statement cancels and with the library's two-statement create. A statement may fail, which aborts its transaction and frees its row locks at once; a transaction may vanish at any point; calls to endpoints are logged and no rollback removes them. `Invariant` states what every reachable state satisfies, `Commits`, `Statements` and `Reachable` prove that it does, and `Runs`, `Safety`, `Delivery`, `Calls`, `Timing`, `Late`, `Versions`, `Updates`, `Witnesses` and `Progress` say what follows for whole runs.

**The same code statement by statement.** `Pipeline` (the worker) and `Handlers` (the API, and the library's cancel) are imperative: methods that change a connection's state in the order of the source, with every answer of the database left open. They are proved to commit exactly what the transactions of `Protocol` commit (`Traces`).

**Templates and secrets.** `Template` is the resolver, with the in-place loops proved against a left-to-right renderer; `TemplateLaws` says when it succeeds and what it depends on; `Printing` relates it to templates written out from their parts; `Lookups` says what each name stands for and where a worker gets it from; `SecretScan` is the textual scan for secrets and its exact agreement with the resolver, on JSON printed as `serde_json` prints it (`Json`, `Text`).

**Arithmetic and bounded concurrency.** `Backoff` is the retry delay in 64-bit arithmetic; `Permits` the poll loop, its semaphore, its drain and its health report.

**Lists, caches and filters.** `Paging` and `Cursor` are the page walk and its cursors, `SchemaCache` the schema registry under concurrent callers, `Filters` the query-string filters.

## Where code and documentation disagree

The model follows the code.

- Exactly-once execution (docs/docs/architecture/exactly-once.md:8) holds for what is committed, not for calls to endpoints: `Delivery.DeliveredAnyNumberOfTimes`, and exactly when it does hold, `Calls.OncePerAttemptExactly`.
- `retire_and_replace` does not look at how many rows its first statement matched, so concurrent updates fork a version chain and an update can bring a cancelled job back: `Witnesses.ConcurrentUpdatesFork`, `Witnesses.CancelledJobRevived`, and exactly when not, `Updates.ChainsStayChainsExactly`.
- `replaced_by_id` is documented as the new version's id (docs/docs/guides/versioning.md:36); it is the old job's own: `Updates.ReplacementLinksToItself`.
- The version list is documented as newest first and the same from any version (docs/docs/guides/versioning.md:106, 132). It is oldest first and complete only from the newest: `Versions.ListingIsComplete`, `Versions.WholeLineageExactly`.
- A create that loses a race is documented to return the existing job (docs/docs/architecture/exactly-once.md:111). It fails: with a conflict for IMMEDIATE and CRON jobs, with an internal error for DELAYED ones: `Safety.LoserNeverInserts`, `Handlers.CreateOneShot`.
- A worker whose log statement fails goes on to call the endpoint on an aborted transaction, even after a cancel has committed: `Delivery.CalledAfterCancel`, and exactly how often, `Delivery.CalledAgainExactly`.
- The library's create is two commits; a cancel between them leaves a RETIRED job whose execution still runs: `Witnesses.CancelledJobStillRuns`, and exactly when, `Late.OrphanExactly`.
- A reference with a space inside its braces resolves, but the scan either does not see its secret (a space in front, `SecretScan.PaddedSecretIsMissed`) or looks for a secret with the space in its name and fails the execution (a space behind, `SecretScan.TrailingSpaceFailsTheLoad`). When the loaded secrets do suffice is `SecretScan.SufficientExactly`.
- Executions are paged by creation time alone, so ties at a page's end are skipped: `Paging.ExecutionWalkLosesExactlyTies`.
- A panic while a task is in flight leaves the inflight gauge one too high for good, without bound: `Permits.GaugeIsExact`, `Permits.GaugeFails`. The shutdown asks for `max_concurrent` cut to 32 bits: `Permits.DrainedWithTasks`.

## Model

| member | source | states |
|---|---|---|
| Reachable.RunKeeps | crates/worker/src/poller.rs:116-203 | every state of every interleaving of creates, claims, dispatches, updates, cancels, sweeps, ticks, failures and crashes satisfies the whole invariant |
| Reachable.EventKeeps | crates/worker/src/pipeline.rs:28-314 | the invariant is inductive: whatever event is enabled, it keeps it |
| Reachable.InitHolds | crates/common/src/db/workspaces.rs:170-210 | a freshly provisioned workspace, with its reaper job and entry, satisfies the invariant |
| Commits.DbStays | crates/common/migrations/workspace_v1.sql:48-137 | making sound writes durable keeps the tables consistent: foreign keys, ledger, chains, unique keys, schedule, one execution per one-shot job |
| Commits.CommitKeeps | crates/common/src/db/executions.rs:18-107 | a sound commit also leaves every other open transaction's assumptions true, because of the row locks |
| Statements.StatementKeepsTx | crates/worker/src/pipeline.rs:41-313 | each SQL statement keeps what is known of its own transaction, failed or not |
| Statements.TakesKeepsLocks | crates/common/src/db/executions.rs:29-37 | no statement writes a row, or a unique key, that another open transaction has written |
| Reachable.WorkerSound | crates/worker/src/pipeline.rs:223-313 | what a worker commits at its end settles its one execution and its ledger, and retires swept jobs together with their entries |
| Reachable.CreateSound | crates/api/src/handlers/jobs.rs:82-263 | what a create commits is a job with its execution, or a CRON job with its entry |
| Reachable.UpdateSound | crates/api/src/handlers/jobs.rs:403-441 | what an update commits keeps versions consecutive and the schedule equal to the ACTIVE CRON jobs, even when its first statement matched nothing |
| Reachable.CancelSound | crates/api/src/handlers/jobs.rs:471-509 | what an API cancel commits leaves no claimable execution of a one-shot job behind, and no entry of a CRON one |
| Reachable.LibraryRetireSound | crates/worker/src/client.rs:341-344 | the library's separate retirement leaves none behind either, though its two statements commit one by one |
| Runs.NextProgress | crates/common/src/db/executions.rs:47-107 | one event changes each execution row by at most one allowed move and each job row only from ACTIVE to RETIRED |
| Runs.JobHistory | crates/common/src/db/jobs.rs:300-346 | along any run a job row only ever retires; nothing else but its replacement link changes, and a RETIRED row never changes again |
| Safety.NeverCommittedRunning | crates/worker/src/poller.rs:124-202 | no committed execution is ever RUNNING |
| Safety.OneClaimant | crates/common/src/db/executions.rs:29-37 | two transactions that can still commit never hold one execution |
| Safety.ExecutionHistory | crates/common/src/db/executions.rs:47-193 | SUCCESS, FAILED and CANCELLED rows never change again, and a row never becomes PENDING or QUEUED again |
| Safety.StepMoves | crates/common/src/db/executions.rs:47-193 | the only committed moves are from PENDING, QUEUED or RETRYING to SUCCESS, FAILED or RETRYING with one more attempt, and from PENDING or QUEUED to CANCELLED with none; nothing else in the row changes but the due time of one that becomes RETRYING |
| Safety.AttemptLedger | crates/worker/src/pipeline.rs:223-313 | the attempts of an execution are numbered without gap up to its count, or one short when the endpoint could not be loaded; a RETRYING row has attempts left; SUCCESS is exactly a successful last attempt |
| Safety.MoveLowersRank | crates/common/src/db/executions.rs:66-89 | every committed move lowers a natural-number measure |
| Safety.ChangesBounded | crates/worker/src/pipeline.rs:271-311 | however long the run, an execution's row changes at most max(1, max_attempts) times |
| Safety.ScheduleIsActiveCron | crates/api/src/handlers/jobs.rs:250-263 | in every committed state the pg_cron entries are exactly the ACTIVE CRON jobs |
| Safety.InternalForever | crates/api/src/handlers/jobs.rs:374-381 | in service mode, where the library does not cancel CRON jobs, an INTERNAL CRON job without an end date stays ACTIVE and scheduled for ever |
| Safety.RetiredHasNothingPending | crates/api/src/handlers/jobs.rs:492-498 | a RETIRED one-shot job has no PENDING or QUEUED execution, but for a job whose execution the library inserted late; `Late` says exactly when |
| Safety.LateOnlyByLibrary | crates/worker/src/client.rs:198-209 | only the library's second insert, with a cancel under way or done, makes a job late |
| Late.OrphanExactly | crates/worker/src/client.rs:198-209 | after the library's second insert, a state in which the job is RETIRED and the execution still claimable can be reached if and only if at the insert the job was already RETIRED or a cancel of it had selected its rows |
| Late.OrphanWasInsertedLate | crates/worker/src/client.rs:332-344 | and in no other way: wherever a RETIRED one-shot job has a PENDING or QUEUED execution, that execution was inserted so |
| Safety.OneJobPerKey | crates/api/src/handlers/jobs.rs:70-76 | all answers for one endpoint and key, over a whole run of racing creates, name one committed job |
| Safety.LoserNeverInserts | crates/api/src/handlers/jobs.rs:99-113 | once a job with its key has committed, a create that was already past its check can neither insert nor commit |
| Safety.KnownKeyBeginsNothing | crates/api/src/handlers/jobs.rs:70-76 | once a job with its key has committed, no create with that key begins |
| Safety.ExactlyOneExecution | crates/common/src/db/jobs.rs:16-107 | each one-shot job has exactly one execution; only a library job between its two inserts has none |
| Safety.OneExecutionPerTick | crates/common/src/db/jobs.rs:398-421 | a CRON job has at most one execution per tick |
| Delivery.SuccessWasDispatched | crates/worker/src/pipeline.rs:225-258 | a committed SUCCESS means the endpoint was called |
| Delivery.DeliveredAnyNumberOfTimes | docs/docs/architecture/exactly-once.md:8 | a claimable execution can be delivered any number of times with no trace in the tables |
| Calls.CallsAccountedFor | crates/worker/src/pipeline.rs:199-217 | conservation: every call is a committed attempt that reached the dispatch, a call of a worker still at work, or one whose transaction was lost |
| Calls.OncePerAttemptExactly | docs/docs/architecture/exactly-once.md:30-36 | calls equal calling attempts if and only if no worker was lost after its call |
| Calls.FailedHasNoAttemptLeft | crates/worker/src/pipeline.rs:271-300 | along any run, an execution that has FAILED after a call has used all its attempts: no failed call goes without its retry |
| Timing.CallsAreDue | crates/common/src/db/executions.rs:29-37 | no execution is called before its time: each call's worker began when the row was PENDING, QUEUED or RETRYING and its due time had come |
| Timing.SweptOnlyAfterTheirEnd | crates/common/src/db/jobs.rs:371-385 | a worker's commit retires a job only if it is a CRON job whose end date has passed |
| Timing.TicksStayInWindow | crates/common/src/db/jobs.rs:398-421 | in every reachable state each tick's execution lies between its job's start and end dates, however late the sweep comes |
| Progress.NothingIsStuck | crates/worker/src/poller.rs:116-203 | from every reachable state a PENDING, QUEUED or RETRYING execution can still become a SUCCESS, or after a failed call RETRYING until the backoff is over if attempts are left and FAILED if not |
| Progress.TickExactly | crates/common/src/db/jobs.rs:398-421 | a tick inserts an execution if and only if its job is an ACTIVE CRON job within its dates with none for that moment |
| Progress.TickInserts | crates/common/src/db/jobs.rs:398-421 | that execution is QUEUED and due at once, and the tick changes nothing else |
| Progress.FreeKeyCanBeUsed | crates/api/src/handlers/jobs.rs:82-194 | while no job has a key for an endpoint, a create with it can still come through, with exactly its job and its execution |
| Delivery.CancelledIsNotCalledAgain | crates/api/src/handlers/executions.rs:53-70 | after a committed cancel the row stays CANCELLED and only workers already open can still call the endpoint, each at most once |
| Delivery.WaitingIsDoomed | crates/worker/src/pipeline.rs:190-202 | those workers have a failed statement and cannot commit |
| Delivery.CalledAfterCancel | crates/worker/src/pipeline.rs:420-431 | and such a call after the cancel does happen |
| Delivery.CalledAgainExactly | crates/worker/src/pipeline.rs:190-202 | from a reachable state in which an execution is CANCELLED, k more calls can happen if and only if at least k workers with a failed statement are still open on it; none exactly when there is no such worker |
| Versions.ListingIsComplete | crates/common/src/db/jobs.rs:348-361 | in every reachable state the listing runs through versions 1, 2, ... up to the job's own, all RETIRED but the last |
| Versions.ListingIsUnique | crates/common/src/db/jobs.rs:348-361 | and nothing else is such a listing |
| Versions.LineageIsAList | docs/docs/guides/versioning.md:10-26 | where no version was replaced twice, of two versions of a lineage one is listed among the other's predecessors |
| Versions.OneActiveVersion | docs/docs/guides/versioning.md:30-36 | and then at most the highest version is ACTIVE |
| Versions.WholeLineageExactly | docs/docs/guides/versioning.md:131-133 | in any reachable table, forked or not, a version lists its whole lineage if and only if it has not been replaced and no version it lists has been replaced twice |
| Versions.WholeLineageOnlyFromHead | docs/docs/guides/versioning.md:131-133 | where no version was replaced twice, that is exactly when it has not been replaced |
| Updates.UnmatchedFindsRetired | crates/common/src/db/jobs.rs:318-325 | an update's first statement matches no row exactly when the old version is RETIRED at the commit |
| Updates.StepAppends | crates/common/src/db/jobs.rs:312-346 | a step gives a RETIRED job a successor if and only if it commits an update that matched no row |
| Updates.ChainsStayChainsExactly | crates/api/src/handlers/jobs.rs:359-441 | along a run no version is replaced twice and no ended chain continued, if and only if every committed update had matched an ACTIVE row |
| Updates.RetiredRefuses | crates/api/src/handlers/jobs.rs:371-373 | once a job is RETIRED no update of it begins and no cancel of it gets past its read |
| Updates.ReplacementLinksToItself | crates/common/src/db/jobs.rs:323 | a replacement link always holds the job's own id |
| Witnesses.ConcurrentUpdatesFork | crates/common/src/db/jobs.rs:318-343 | from any state, two updates of one version that overlap both commit and leave two ACTIVE versions with one number |
| Witnesses.CancelledJobRevived | crates/common/src/db/jobs.rs:318-343 | an update that read the job before its cancel brings it back |
| Witnesses.CancelledJobStillRuns | crates/worker/src/client.rs:184-209 | a library cancel between the library's two inserts leaves a RETIRED job with a claimable execution |
| Pipeline.Connection.Finalise | crates/common/src/db/executions.rs:47-107 | a completion updates the claimed row or aborts the transaction |
| Pipeline.Connection.RetireExpired | crates/common/src/db/jobs.rs:371-385 | the sweep's UPDATE retires exactly the ACTIVE CRON rows whose end date has passed, in its snapshot and still when their lock is granted, returning each once, or aborts everything |
| Pipeline.Connection.Unregister | crates/common/src/db/jobs.rs:496-509 | afterwards there is no entry: a present one is removed, an absent one is no error, a failure aborts everything |
| Pipeline.ReapSchema | crates/worker/src/reaper.rs:38-58 | exactly the ACTIVE CRON rows whose end date has passed are retired and none of them has an entry left, in one transaction that is aborted if any statement fails |
| Pipeline.RecordAndFinalise | crates/worker/src/pipeline.rs:223-313 | a delivered attempt is a SUCCESS; a failed one leaves the row RETRYING until the transaction's time plus the backoff while attempts are left, and FAILED when none is; the attempt row says which |
| Pipeline.Reject | crates/worker/src/pipeline.rs:72-96 | a spec that cannot be resolved ends the execution as FAILED with its attempt recorded |
| Pipeline.ProcessExecution | crates/worker/src/pipeline.rs:28-314 | every path finalises the claimed row, field by field, unless a statement failed, and follows the worker of the transition system step by step |
| Pipeline.ClaimAndProcess | crates/worker/src/poller.rs:116-203 | stops at the first schema that offers a QUEUED, RETRYING or PENDING execution that is due and whose job can be read, and says whether there was one; makes one commit there, which finalises that execution, unless a statement or the commit fails; changes nothing else, not even after a tentative complete_failed |
| Handlers.CreateJob | crates/api/src/handlers/jobs.rs:22-263 | trigger by trigger, answers with a job only after one commit of exactly that job and its execution or entry, with the attempt limit and the times the body asks for, and always does if nothing is wrong, its key is new and no statement fails; otherwise names the first thing wrong in the handler's order and commits nothing |
| Handlers.CreateOneShot | crates/api/src/handlers/jobs.rs:93-168 | job and execution commit together, and are what the protocol's create commits |
| Handlers.UpdateJob | crates/api/src/handlers/jobs.rs:347-457 | refuses in the handler's order; otherwise, unless a statement fails, one commit with the next version scheduled and no entry left for the old one, which is retired if and only if it was still ACTIVE |
| Handlers.CancelJobById | crates/api/src/handlers/jobs.rs:464-512 | one commit with the job retired, and either no entry left for it or exactly those of its executions cancelled that are PENDING or QUEUED when looked at again; or no commit; and which of the two, if no statement fails |
| Handlers.CancelExecutionById | crates/api/src/handlers/executions.rs:41-72 | the row is cancelled exactly when it was PENDING or QUEUED when read and again when updated, if no statement fails, and the commit is that row with its status changed |
| Handlers.LibraryCancelJob | crates/worker/src/client.rs:332-350 | each statement commits by itself, in order, so a failure leaves exactly those before it; a CRON job without an entry ends in an error with the job retired |
| Template.Interpolate | crates/common/src/template.rs:46-65 | the loop that rewrites the buffer in place computes exactly the left-to-right rendering of the original string, and terminates |
| Template.Turn | crates/common/src/template.rs:46-62 | one turn: the unread suffix stays the original suffix and substituted text is never read again |
| Template.ResolveStringInPlace | crates/common/src/template.rs:34-66 | shortcut and loop together are the string resolver |
| Template.ResolveTree | crates/common/src/template.rs:3-32 | the walk that fills a result map is the recursive resolver |
| Template.ClosesAfterOpening | crates/common/src/template.rs:47-50 | the closing braces found never overlap the opening ones |
| Template.SingleIsLongEnough | crates/common/src/template.rs:68-78 | the shortcut's slice is in range: its four braces are four characters |
| TemplateLaws.ResolveFailsAtFirst | crates/common/src/template.rs:3-32 | resolving stops with the error of the first unbound variable in reading order, of any key or value |
| TemplateLaws.ResolvesIffAllBound | crates/common/src/template.rs:3-110 | a tree resolves if and only if every variable in its keys and values is bound |
| TemplateLaws.ResolveAgrees | crates/common/src/template.rs:80-110 | the outcome depends on the referenced variables alone |
| TemplateLaws.PlainResolvesToItself | crates/common/src/template.rs:34-66 | a tree with no opening braces resolves to itself |
| TemplateLaws.ResolvedObject | crates/common/src/template.rs:18-26 | a resolved object holds, under each resolved name, the value of the last field that resolves to it |
| Lookups.NamesLookUp | crates/common/src/template.rs:80-110 | each of the four namespaces reads its own map under the rest of the name, or is unresolved |
| Lookups.OtherNamesAreUnknown | crates/common/src/template.rs:107-109 | any other name is an unknown namespace |
| Lookups.ResolvesIffStored | crates/common/src/template.rs:3-110 | a tree resolves if and only if each name in its keys and values is stored in the map its namespace says |
| Lookups.ResolvesTheSame | crates/common/src/template.rs:80-110 | maps that agree on those names give the same value or the same error |
| Lookups.InlineIs | crates/common/src/template.rs:54-57 | inside a longer string a string stands bare and any other value as its JSON text |
| Lookups.TwoNamesResolve | crates/common/src/template.rs:34-66 | two references between any literals resolve to the concatenation of literals and values |
| Lookups.ConfigThenInput | crates/common/src/template.rs:86-97 | a config address followed by a path and an input identifier resolves to the three joined |
| Lookups.InputLooksUp | crates/worker/src/pipeline.rs:129-132 | an input name stands for the field of that name of an object input, and nothing else does |
| Lookups.ExecutionMap | crates/worker/src/pipeline.rs:134-144 | the four execution names and their values, the idempotency key falling back to the execution's id |
| Lookups.BodyFilledIn | crates/worker/src/pipeline.rs:179-187 | the input becomes the body of a spec with neither body nor template, and nothing else changes |
| Json.EscapeReadsBack | crates/worker/src/pipeline.rs:340 | a printed string, read by the rules of section 7 of RFC 8259, is the string |
| Json.GetInserted | crates/common/src/template.rs:18-26 | inserting into a result map changes that key and no other |
| Printing.RenderPrinted | crates/common/src/template.rs:46-65 | on printed parts the loop finds exactly their references and substitutes each |
| Printing.ShortcutExactly | crates/common/src/template.rs:68-78 | the shortcut is taken for one reference among blank text, and for nothing else |
| Printing.PrintThenResolve | crates/common/src/template.rs:34-78 | a printed template resolves to the raw value of a lone reference, and otherwise to the concatenation of its parts' values |
| Printing.ShortcutAgreesExactly | crates/common/src/template.rs:41-65 | shortcut and loop agree on a lone reference if and only if its value is a string and no text stands around it |
| SecretScan.LoadSecrets | crates/worker/src/pipeline.rs:335-360 | the scanning loop loads exactly the scanned names, or fails on the first that is not stored |
| SecretScan.ReadsTree | crates/worker/src/pipeline.rs:340-354 | over the serialised text of any printed tree the scan reads its parts in order and nothing else, escapes and punctuation included |
| SecretScan.ScannedExactly | crates/worker/src/pipeline.rs:344-347 | a secret is scanned if and only if some reference to it is unpadded |
| SecretScan.VariablesOfTree | crates/common/src/template.rs:3-66 | the variables the resolver sees in a printed tree are its references |
| SecretScan.LoadSucceedsExactly | crates/worker/src/pipeline.rs:344-354 | the load succeeds if and only if every name the scan reads, padding before the closing braces included, is stored |
| SecretScan.SufficientExactly | crates/worker/src/pipeline.rs:335-360 | for a spec the whole store resolves, the load succeeds and what it loads resolves the spec to the same value if and only if every secret is mentioned unpadded at least once and every name the scan reads is stored |
| SecretScan.TrailingSpaceFailsTheLoad | crates/worker/src/pipeline.rs:346-347 | next to an unpadded mention, a mention with a space before its closing braces fails the load although the whole store resolves the spec |
| SecretScan.UnpaddedSuffices | crates/worker/src/pipeline.rs:102-152 | with unpadded references to stored secrets the load succeeds and resolution is that of the whole store |
| SecretScan.PaddedSecretIsMissed | crates/worker/src/pipeline.rs:344 | with a padded reference the load succeeds and resolution fails where the whole store would resolve it |
| Backoff.AlwaysDefined | crates/worker/src/backoff.rs:4-20 | no jitter overflows or panics if and only if the base delay plus a quarter fits in 64 bits |
| Backoff.DelayByPolicy | crates/worker/src/backoff.rs:5-10 | the delay before jitter, policy by policy |
| Backoff.NegativePolicies | crates/worker/src/backoff.rs:12-20 | a negative base delay gives none, and a negative maximum panics |
| Backoff.WithinAQuarter | crates/worker/src/backoff.rs:12-20 | the possible delays are exactly those within a quarter of the base, cut to 0 and the maximum |
| Backoff.ExponentialGrows | crates/worker/src/backoff.rs:9 | any delay of one attempt is at most any delay of the next, in exponential mode |
| Backoff.GrowthWraps | crates/worker/src/backoff.rs:9 | attempt 64 always overflows, and after 2^32 attempts the cast starts the delays again |
| Backoff.ExponentialTotal | crates/worker/src/pipeline.rs:271-273 | the waits of a run add up to at most 5/4 * initial * (2^(n-1) - 1) and at most (n-1) * max_delay |
| Backoff.LinearTotal | crates/worker/src/backoff.rs:7 | the waits of a linear run add up to at most 5/8 * initial * n * (n-1) |
| Permits.PermitsConserved | crates/worker/src/poller.rs:49-102 | free, loop, task and drain permits always add up to max_concurrent, so tasks never exceed it |
| Permits.GaugeIsExact | crates/worker/src/poller.rs:161-199 | the gauge counts the tasks in flight if and only if none has panicked in flight |
| Permits.GaugeFails | crates/worker/src/poller.rs:167-197 | after one panic the gauge counts a task that is gone, and after enough it stands above max_concurrent with no task at all |
| Permits.IdleExactly | crates/worker/src/poller.rs:53-62 | the loop is idle exactly when some task has found no work since the loop last slept |
| Permits.FetchFailureSleeps | crates/worker/src/poller.rs:71-82 | after a failed fetch the permit is back and the loop sleeps before it ticks or asks again |
| Permits.TicksEachIteration | crates/worker/src/poller.rs:49-70 | every permit the loop takes follows a health tick of its own |
| Permits.NoTaskAfterExit | crates/worker/src/poller.rs:104-111 | once the loop is left no task starts |
| Permits.DrainedMeansIdle | crates/worker/src/poller.rs:104-111 | a drain that gets all its permits leaves no task, for max_concurrent below 2^32 |
| Permits.DrainedWithTasks | crates/worker/src/poller.rs:107-108 | from 2^32 on a drain can complete with a task running |
| Permits.StaleHasCapacity | crates/worker/src/health.rs:7-13 | a worker is reported stale exactly when it has a free permit and has not ticked for the floor and for ten poll intervals |
| Paging.WalkIncreases | crates/api/src/handlers/configs.rs:44-72 | whatever happens to the table between pages, a walk returns items in strictly increasing order |
| Paging.ExactlyOnce | crates/common/src/db/configs.rs:32-59 | an item present during the whole of a completed walk comes exactly once |
| Paging.FixedTableWalk | crates/api/src/handlers/configs.rs:52-60 | on a fixed table a completed walk is the table, and a walk has at most as many pages as items |
| Paging.PageFacts | crates/common/src/pagination.rs:16-18 | a page is a prefix of what lies after the cursor, at most 200 long, and says truly whether there is more |
| Paging.PageSize | crates/common/src/pagination.rs:16-18 | a page has as many items as asked for, but at least 1 and at most 200, or what is left, and a next cursor exactly if more is left |
| Paging.ExecutionWalkLosesExactlyTies | crates/common/src/db/executions.rs:133-163 | the walk over a job's executions is complete if and only if no page ends between two created at one time |
| Paging.CompleteForEveryLimit | crates/common/src/db/executions.rs:142-157 | and for every page size if and only if no two were created at one time |
| Cursor.EncodeThenDecode | crates/common/src/pagination.rs:30-32 | what is encoded decodes to itself |
| Cursor.DecodeThenEncode | crates/common/src/pagination.rs:20-28 | nothing else decodes |
| Cursor.UrlSafeAlphabet | crates/common/src/pagination.rs:1 | the alphabet is that of section 5 of RFC 4648 |
| Cursor.CursorRoundTrip | crates/common/src/pagination.rs:15-32 | a cursor is read as a name if and only if it is that name's cursor |
| SchemaCache.BoundedStaleness | crates/common/src/tenant.rs:99-123 | every list returned was the ACTIVE set at an instant within the time to live plus the write delay, for any interleaving, and the cache never serves an empty list |
| SchemaCache.StalenessIsTight | crates/common/src/tenant.rs:104-119 | the bound is reached: the time to live runs from the write, not from the query |
| SchemaCache.OlderCanReplaceNewer | crates/common/src/tenant.rs:117-119 | an older query result can overwrite a newer one and be served |
| SchemaCache.SchemaRegistry.constructor | crates/common/src/tenant.rs:87-96 | a new registry never answers from its cache |
| SchemaCache.SchemaRegistry.GetActiveSchemas | crates/common/src/tenant.rs:100-122 | a hit changes nothing, a failed refresh keeps the old list, and a fetched empty list is never served later |
| Filters.ParseFilterList | crates/api/src/extractors.rs:214-235 | succeeds if and only if every non-blank token parses; otherwise names the first that does not |
| Filters.FirstAppearancesAre | crates/api/src/extractors.rs:229-231 | the result holds the values in order of first appearance |
| Filters.NoRepeats | crates/api/src/extractors.rs:229-231 | and none of them twice |
| Filters.SplitPlain | crates/api/src/extractors.rs:222 | a value without a comma is one token |
| Filters.CutAtComma | crates/api/src/extractors.rs:221-222 | a value cut at a comma into two pairs gives the same tokens, hence the same result and the same error |
| Filters.LastScalarIsLast | crates/api/src/extractors.rs:203-209 | a scalar filter is the trimmed value of the last pair with its key that is not blank |

## Left out

- The claim's `ORDER BY run_at LIMIT 1`: any due row may be claimed, which allows more runs than the code does.
- Config and secret caches, decryption, and what endpoints answer: a load is a statement that succeeds, finds nothing or fails.
- HTTP, Kafka and Redis dispatch: a call that succeeds or fails and that nothing undoes. The sweep of an INTERNAL endpoint and the refusal of an unsupported type count as calls in `Delivery` and `Calls`.
- The execution_logs table: its inserts matter to the transaction only by failing.
- Cron expressions, time zones and next-run times: given as answers, and ticks come whenever their guards allow.
- The library's CRON jobs in the protocol: it registers no entry for them and unschedules outside the row update. Its cancel of one is `Handlers.LibraryCancelJob`.
- Text is a sequence of Unicode scalar values; the source's byte offsets are not modelled.
- The poll loop runs for ever in the source; it is a transition system here, not a method.
- `WorkerHealth` as an object: its clock and semaphore are fields of the worker's state in `Permits`.
- Wrap-around of a release build in the backoff: leaving 64 bits is one outcome, whatever follows.
- The collation of the database: lists are modelled by positions in their order.
- UTF-8 validation in cursors is a parameter.
- Filters on dates and the order of errors between filters.
- Endpoint, config, secret and payload-spec handlers, organisations, authentication, metrics other than the inflight gauge, and the generated client.
