# Verification of the queue

A Dafny model of redloop, the Redis-backed job queue in this repository, and proofs about it. `dafny verify dfyconfig.toml`
checks everything.

**The store.** A namespace is a value (`Queue.State`): the sorted sets `ready`, `scheduled`, `leased` and `failed` as maps
from job id to integer score, ordered by (score, id) as Redis orders them; the hashes `lease_meta`, `failures`,
`workers:leases`, `workers:config` and the pinned retry policy; the set `rerun`. Each Lua script is given twice: as a method of
the class `Store.Namespace`, with the script's control flow and loops over mutable fields, and as a function in
`Scripts` that gives the whole new state and the reply; the method is proved to compute the function. `Steps.Op` names every
mutation, and `Runs` lets any number of clients interleave them in any order, each with whatever clock it has. The only
assumptions on clients are in `Runs.ValidStep`: a reservation brings a fresh token for every unit of capacity (the
worker makes them, `crates/redloop/src/worker/leases.rs:65-67`), and a failure is reported under the policy of the worker
that made the token. The composed system shows that the workers keep both.

**The workers.** `WorkerRuntime.Runtime` is the worker loop: the top of a turn and one method for each branch of its
`select!`, over the same local maps. The functions of `WorkerState` say what each event does to them.

**The composed system.** `Fleet` puts any number of workers on one store. A reservation is two actions, the store granting
jobs and the reply arriving or being lost. A worker may give up on a completion or a heartbeat, which may then be executed
late, more than once, or never. Such late commands, and everything other clients do, are actions of the environment; for an
attempt whose token a worker of the system made, only commands that some worker has sent can come late. Processes may die and
restart with another configuration. `Turns` shows that what `WorkerRuntime` does in a turn is a sequence of these actions.

Time is an integer number of microseconds and every score is an exact integer.

Where code and documentation differ, the model follows the code:

- An immediate enqueue of a leased job is answered `updated` the first time, because it marks the job for a rerun
  (`enqueue_or_reschedule.lua:119-125`); `docs/protocol/redloop/README.md:92` says `Unchanged`.
- An ack returns a marked job to `ready` (`ack.lua:28-30`); `docs/protocol/redloop/README.md:263` says it deletes the run.
- A reap does not validate the record of an expired lease (`reap_expired.lua:36-48`); `docs/protocol/redloop/redis-layout.md:344`
  lists such a step.
- Not every due duplicate is dropped before a job is chosen (`Duplicates.DuplicateSurvives`), against
  `docs/protocol/redloop/README.md:237-238`. `Duplicates.DroppedExactly` says which are. This concerns damaged states only: by
  `Runs.RunCoherent` no run of the scripts reaches a state with a duplicate.
- A worker's lease counter is not the number of its leases once the worker was pruned while it held one
  (`workers.rs:212-225`), against `docs/protocol/redloop/redis-layout.md:219-224`. `Counters.PruneExactIff`,
  `Counters.StepCountersIff` and `Runs.RunCountersExactIff` give the exact condition.
- The schedule of a job that was failed is shown with 14 significant digits (`enqueue_or_reschedule.lua:150`), all others
  digit by digit; `Replies.ShownExactIff` says when the two agree. The client does not read that entry (`enqueue.rs:183-199`).
- The hint for the next schedule is searched from a bound of 14 significant digits (`reserve.lua:93`), not from the current
  time; `Hints.HintExactIff` says when it makes no difference.
- The store may hold more leases for a worker than its concurrency (`Overcommitment.LeasesMayExceedConcurrency`), although no
  worker asks for more than it can run (`docs/protocol/redloop/README.md:204-205`); `LeaseBounds.LeasesCounted` says exactly when.
- The keys of the empty namespace do not share a cluster hash tag (`Keys.EmptyNamespaceIsScattered`), against
  `docs/protocol/redloop/redis-layout.md:19`. `Keys.OneSlotPerNamespace` says which namespaces are kept together.
- The first exponential delay is the initial delay even when that exceeds the maximum (`Policy.BackoffClosedForm`).

## Model

| member | source | states |
|---|---|---|
| Store.Namespace.constructor | crates/redloop/src/redis_store/keys.rs:1-14 | A namespace starts with none of its keys present. |
| Store.Namespace.EnqueueOrReschedule | crates/redloop/src/redis_store/scripts/enqueue_or_reschedule.lua:76-170 | The script's branches and in-place updates leave the state, and send the reply, of the atomic step `Scripts.Enqueue`, for all three operations and replace modes; `Targets` says where that puts the job. |
| Store.Namespace.Reserve | crates/redloop/src/redis_store/scripts/reserve.lua:25-98 | Policy check, registration, the grant loop and the hint for the next schedule together are the atomic step `Scripts.Reserve`, whose hint `Hints.HintIsEarliest` pins. |
| Store.Namespace.GrantRounds | crates/redloop/src/redis_store/scripts/reserve.lua:38-91 | The outer loop with its early exits, including the one after a job has left its set and no token is left, is `Scripts.GrantLoop`. |
| Store.Namespace.DropDuplicates | crates/redloop/src/redis_store/scripts/reserve.lua:42-52 | The inner loop ends, because the scheduled set shrinks, and leaves what `Scripts.DropDuplicates` says. |
| Store.Namespace.Heartbeat | crates/redloop/src/redis_store/scripts/heartbeat.lua:11-19 | Deadline and liveness are overwritten for the attempt that holds the lease; any other caller is turned away. |
| Store.Namespace.Ack | crates/redloop/src/redis_store/scripts/ack.lua:13-32 | The fenced removals, the counter and the conditional return to ready are the atomic step `Scripts.Ack`. |
| Store.Namespace.CompleteAndReschedule | crates/redloop/src/redis_store/scripts/complete_and_reschedule.lua:15-41 | The fenced completion, with a rerun mark winning over the requested time, is `Scripts.Complete`. |
| Store.Namespace.FailOrRetry | crates/redloop/src/redis_store/scripts/fail_or_retry.lua:22-82 | The fenced failure, its count and its three destinations are `Scripts.Fail`. |
| Store.ExponentialDelay | crates/redloop/src/redis_store/scripts/fail_or_retry.lua:70-73 | The loop over the earlier failures computes the capped delay whose closed form `Policy.BackoffClosedForm` gives. |
| Store.Namespace.ReapExpired | crates/redloop/src/redis_store/scripts/reap_expired.lua:29-51 | The bounded loop leaves the state and the count of `Scripts.Reap`, for any limit. |
| Store.Namespace.OperatorTransition | crates/redloop/src/redis_store/scripts/operator_transition.lua:49-134 | All six operator transitions, with lease stripping and the owner's counter, are `Scripts.Operator`. |
| Store.Namespace.PurgeFailed | crates/redloop/src/redis_store/counts.rs:165-173 | The delete pipeline removes the selected jobs from `failed` and `failures`, whatever they have become since they were selected. |
| Store.Namespace.PruneWorkers | crates/redloop/src/redis_store/workers.rs:212-225 | The delete pipeline removes liveness, record and lease counter of every selected worker. |
| Scripts.Enqueue | crates/redloop/src/redis_store/scripts/enqueue_or_reschedule.lua:76-170 | No enqueue or reschedule touches a lease, a record, a counter of leases or the policy, or anything of another job; where it puts its own job is stated by the lemmas of `Targets`. |
| Scripts.Fail | crates/redloop/src/redis_store/scripts/fail_or_retry.lua:22-82 | A failure that passes the fence ends exactly the caller's lease and touches nothing of another job. |
| Scripts.Operator | crates/redloop/src/redis_store/scripts/operator_transition.lua:49-134 | An operator call leaves all leases alone, or it is a force on a leased job and ends exactly that lease for its recorded holder; nothing of another job changes. |
| Coherence.StepCoherent | crates/redloop/src/redis_store/scripts/operator_transition.lua:49-134 | Every step of every script keeps, for every job: at most one placement, a lease record exactly for the leased jobs, a rerun mark only on leased jobs, a counter for every failed job and no counter that outlives its job. |
| Runs.RunCoherent | docs/protocol/redloop/redis-layout.md:177-183 | So all of this holds after every step of every run: any interleaving of any clients with any clocks. |
| Coherence.CoherentIndexes | docs/protocol/redloop/redis-layout.md:177-183 | The same in terms of whole indexes: the four sets are pairwise disjoint, the records are those of the leased jobs, rerun is within leased, failed within failures within the known jobs. |
| Runs.RunCounters | docs/protocol/redloop/redis-layout.md:219-229 | After every step of every run the stored lease counter of a worker equals the number of leased jobs whose record names it, as long as every pruned worker held no lease when it was pruned; in any run the counter is positive where present and never more than that number. |
| Runs.RunCountersExactIff | docs/protocol/redloop/redis-layout.md:219-224 | The counters are exact after every step of a run if and only if each prune of the run found its workers without leases. |
| Counters.StepCountersIff | crates/redloop/src/redis_store/scripts/reap_expired.lua:22-47 | From exact counters a step leads to exact counters if and only if it prunes no worker that holds a lease. |
| Counters.PruneExactIff | crates/redloop/src/redis_store/workers.rs:212-225 | Pruning leaves exact counters exact if and only if no pruned worker holds a lease. |
| Counters.StepCounters | crates/redloop/src/redis_store/scripts/reap_expired.lua:22-47 | Each step keeps the counters exact unless it prunes a worker that holds a lease; each step without exception keeps them as lower bounds. |
| Counters.PruneLosesExactness | crates/redloop/src/redis_store/workers.rs:212-225 | The concrete case: a worker pruned while it holds one lease is under-counted from then on. |
| Reservations.ReserveTakesFirst | crates/redloop/src/redis_store/scripts/reserve.lua:38-91 | A reservation leases, in order, the first min(capacity, n) of the ready and due scheduled jobs by activation time, ready before scheduled, then job id; each with its own token and deadline; if it grants fewer than asked, no eligible job is left. Nothing else changes. |
| Reservations.GrantLoopTakesFirst | crates/redloop/src/redis_store/scripts/reserve.lua:38-91 | The same for any number of tokens: if they run out, exactly one more job has left its source set. |
| Reservations.EligibleOrder | crates/redloop/src/redis_store/scripts/reserve.lua:62-70 | The order of the eligible jobs is: older activation time, then ready before scheduled, then job id. |
| Reservations.ReserveConservesIff | crates/redloop/src/redis_store/scripts/reserve.lua:72-81 | A reservation keeps the set ready + scheduled + leased if and only if there is a token for every job it takes. |
| Reservations.ReserveLosesOne | crates/redloop/src/redis_store/scripts/reserve.lua:72-81 | Otherwise exactly one job is lost: the first one without a token. |
| Reservations.GrantLoopConserves | crates/redloop/src/redis_store/scripts/reserve.lua:42-81 | From any state, with duplicates or without: jobs only move towards leased, every job taken was ready or due and not leased, and no scheduled entry is changed. |
| Reservations.DropConserves | crates/redloop/src/redis_store/scripts/reserve.lua:42-52 | Every entry the inner loop drops still has its job in ready or leased, and the loop ends with a head that is no duplicate. |
| Hints.HintIsEarliest | crates/redloop/src/redis_store/scripts/reserve.lua:93-96 | The hint in the reply of an accepted reservation is the score of a schedule it leaves after the bound Lua writes, and no such schedule is earlier; 0 if there is none. |
| Hints.HintExactIff | crates/redloop/src/redis_store/scripts/reserve.lua:93-96 | The hint in the reply is the earliest schedule after the current time if and only if no schedule that the reservation leaves lies between that time and the 14-digit number Lua writes for it. |
| Waits.TurnComes | docs/protocol/redloop/README.md:225-239 | As long as clocks have passed its activation time, whatever happens in between, a ready job that nobody schedules or reschedules stays ready with its activation time until it is granted, and every accepted reservation that does not take it brings its turn forward by the capacity it asked for; no step ever sets it back. |
| Waits.ReadyIsReserved | crates/redloop/src/redis_store/scripts/reserve.lua:38-91 | So no ready job starves: once the accepted reservations have asked for as many jobs as its turn, it has been granted. |
| Duplicates.DroppedExactly | crates/redloop/src/redis_store/scripts/reserve.lua:42-52 | A scheduled entry is dropped if and only if it is due and it and every due entry before it is a duplicate. |
| Duplicates.DuplicateSurvives | docs/protocol/redloop/README.md:237-238 | A concrete damaged state, one no run reaches, in which a due duplicate survives, although the documentation says none can. |
| LeaseSteps.ReserveGrants | crates/redloop/src/redis_store/scripts/reserve.lua:25-33 | A reservation is refused without effect, or grants every reported job once, in token order, to its worker, and pins the policy it was made under. |
| Reaps.ReapRefines | crates/redloop/src/redis_store/scripts/reap_expired.lua:29-49 | A reap recovers exactly the first min(limit, n) expired leases in the order of deadline and id: they become ready at the current time, with record and mark gone and every failure counter as it was; nothing else changes for any job. |
| Reaps.RecoveredExpired | crates/redloop/src/redis_store/scripts/reap_expired.lua:31-34 | Only leases past their deadline are recovered. |
| Reruns.RerunExact | crates/redloop/src/redis_store/scripts/enqueue_or_reschedule.lua:114-139 | At every point of every run a job is marked for a rerun if and only if it is leased and an immediate enqueue came after its lease was granted. |
| Reruns.NoEnqueueLost | crates/redloop/src/redis_store/scripts/ack.lua:19-30 | After an immediate enqueue the job stays in the queue until it leaves by the ack or forced ack of a lease granted after that enqueue, by a cancel, or by a purge. |
| JobSteps.StepLeaves | crates/redloop/src/redis_store/scripts/operator_transition.lua:54-132 | A step takes a job out of the queue if and only if it is an ack or a forced ack of its lease without a rerun mark, a cancel of the job while it is scheduled or failed, or a purge of it while it is failed. |
| Runs.EndsAtMostOnce | crates/redloop/src/redis_store/scripts/complete_and_reschedule.lua:15-28 | Whatever steps interleave, an attempt (job, worker, token) ends at most once. |
| Runs.LateCallsAreFenced | crates/redloop/src/redis_store/scripts/heartbeat.lua:11-15 | Once an attempt has ended, every later heartbeat or completion with its token is answered `lease_mismatch` and leaves the whole store unchanged. |
| Runs.CompletesAtMostOnce | docs/protocol/redloop/README.md:287-290 | Of any two completions sent for one attempt at most one takes effect, so repeating one with an unknown outcome is safe. |
| Runs.BeginsByGrant | crates/redloop/src/redis_store/scripts/reserve.lua:78-90 | An attempt begins only with the reservation that reports it, under a fresh token, while the job is not leased. |
| LeaseLedger.LeasesBalance | crates/redloop/src/redis_store/scripts/complete_and_reschedule.lua:15-28 | For every job: grants reported = endings reported by a reply or caused by a reap, plus one if it is leased. |
| LeaseLedger.EndsForCause | crates/redloop/src/redis_store/scripts/reap_expired.lua:31-34 | Every end of an attempt is its own completion, an operator's force on its job, or a reap at or past its deadline. |
| LeaseLedger.StepKeepsAttempt | crates/redloop/src/redis_store/scripts/heartbeat.lua:11-19 | Any other step leaves the attempt in place, with its deadline or the one its own heartbeat sets. |
| LiveLeases.LiveLeaseNotStolen | crates/redloop/src/redis_store/leases.rs:34-37 | If every reap comes less than one lease duration after the attempt's latest sign of life, and nobody completes or forces it, it still holds its lease, up to exactly one duration after that sign of life. |
| Orphans.OrphanStep | crates/redloop/src/redis_store/scripts/reap_expired.lua:29-49 | Past its deadline an unattended lease is recovered, or its rank by (deadline, id) has not grown and a reap has lowered it by its limit; a recovery leaves every failure counter unchanged. |
| Orphans.OrphanBound | crates/redloop/src/redis_store/scripts/reap_expired.lua:29-49 | So once the reaps of the given limit add up to its rank, at most ceil(rank / limit) of them, the job has been recovered into ready, whatever other clients do in between. |
| RetryBudgets.CounterIsExplicit | crates/redloop/src/redis_store/scripts/fail_or_retry.lua:37-53 | The stored failure counter equals the number of explicit failures, reported or forced, since the job's failure lifecycle began; reservations, heartbeats and reaps never change it. |
| RetryBudgets.BudgetKept | crates/redloop/src/redis_store/scripts/fail_or_retry.lua:37-53 | Under the pinned policy, whichever workers report the failures, every job that may still run has a counter that earned it a retry, and every failed job one that is the first refused or less. |
| RetryBudgets.CountedBudget | crates/redloop/src/redis_store/scripts/fail_or_retry.lua:43-53 | With m retries a waiting or leased job has at most m failures and a failed one between 1 and m + 1. |
| RetryBudgets.PolicyPinned | crates/redloop/src/redis_store/scripts/reserve.lua:25-30 | A pinned policy is never replaced. |
| RetryBudgets.HolderRunsPinnedPolicy | crates/redloop/src/redis_store/scripts/reserve.lua:25-30 | Whoever holds a lease made its token under the policy the namespace has pinned. |
| RetryBudgets.HoldersAgree | docs/protocol/redloop/README.md:120-121 | Any two attempts that hold leases at the same time run one and the same policy. |
| Policy.PolicyKeyInjective | crates/redloop/src/config.rs:148-172 | Different policies have different keys. |
| Policy.BackoffClosedForm | crates/redloop/src/redis_store/scripts/fail_or_retry.lua:70-73 | From the second failure on the delay is min(initial * multiplier^(n-1), max) for every multiplier, 0 and 1 included; the first delay is the initial one, uncapped. |
| Policy.BackoffBounded | crates/redloop/src/redis_store/scripts/fail_or_retry.lua:70-73 | No delay exceeds max(initial, max). |
| Policy.BackoffMonotone | crates/redloop/src/redis_store/scripts/fail_or_retry.lua:70-73 | Delays never shrink when multiplier >= 1 and initial <= max. |
| Codec.PackInjective | crates/redloop/src/redis_store/scripts/reserve.lua:17-19 | A lease record determines worker id and token, whatever characters they contain. |
| Codec.WorkerOfPacked | crates/redloop/src/redis_store/scripts/reap_expired.lua:10-20 | The scripts' decoder recovers the worker of every record a grant writes. |
| Codec.ParsePacked | crates/redloop/src/redis_store/codec.rs:49-68 | The client's decoder recovers worker and token of every such record. |
| Codec.DecodersAgree | crates/redloop/src/redis_store/codec.rs:49-68 | On any record the client can read, the scripts read the same worker, unless the length carries a '+' sign. |
| Replies.EnqueueTells | crates/redloop/src/redis_store/scripts/enqueue_or_reschedule.lua:76-170 | An enqueue or reschedule is refused and changes nothing, or its reply names the place the job now has, since now or ahead, and shows its schedule: digit by digit, except for a job that was failed, where Lua's own 14 digits are shown; `created` exactly when it was absent, `unchanged` exactly when nothing changed. |
| Targets.ScheduleLands | crates/redloop/src/redis_store/scripts/enqueue_or_reschedule.lua:106-170 | Scheduling is refused exactly for a leased job. Any other job, absent, failed or waiting, ends up scheduled for exactly the requested time if that lies ahead, else ready now; it is left alone exactly if it waits and is there already, or the mode prefers the time it has. |
| Targets.RescheduleLands | crates/redloop/src/redis_store/scripts/enqueue_or_reschedule.lua:79-105 | The same for a reschedule, which is refused exactly for a job that does not wait. |
| Targets.ImmediateLands | crates/redloop/src/redis_store/scripts/enqueue_or_reschedule.lua:106-140 | An immediate enqueue leaves a ready job as it is, marks a leased one for a rerun, and makes any other ready since now; no schedule is left behind. `unchanged` exactly for a ready or already marked job. |
| Replies.ShownExactIff | crates/redloop/src/redis_store/scripts/enqueue_or_reschedule.lua:145-153 | The time an accepted reply shows is the job's own, digit by digit, if and only if the job was not failed or the time has at most 14 digits. |
| LuaNumbers.TextExactIff | crates/redloop/src/redis_store/scripts/enqueue_or_reschedule.lua:149-151 | `tostring` of a whole number is its plain numeral if and only if it has at most 14 digits. |
| LuaNumbers.ValueExactIff | crates/redloop/src/redis_store/scripts/enqueue_or_reschedule.lua:149-151 | The number that text denotes is the number itself if and only if all its digits after the fourteenth are zero. |
| LuaNumbers.ValueNear | crates/redloop/src/redis_store/scripts/enqueue_or_reschedule.lua:149-151 | It is never further off than half a unit of the fourteenth digit, and of two numbers equally near it is the even one. |
| LuaText.TextDenotes | crates/redloop/src/redis_store/scripts/enqueue_or_reschedule.lua:149-151 | Beyond 14 digits the text is a sign and a numeral in scientific notation, of at most 14 digits, that reads back as exactly that number. |
| Replies.AckTells | crates/redloop/src/redis_store/scripts/ack.lua:13-32 | An ack by the holder leaves the job absent, or ready since now if a rerun was asked for; any other caller is refused and changes nothing. |
| Replies.CompleteTells | crates/redloop/src/redis_store/scripts/complete_and_reschedule.lua:15-41 | A completion by the holder leaves the job ready since now, or scheduled for the requested time exactly when that lies ahead and no rerun was asked for. |
| Replies.FailTells | crates/redloop/src/redis_store/scripts/fail_or_retry.lua:22-82 | A failure by the holder adds one to the counter; the job is failed exactly when the failure is terminal or the policy grants no retry, ready exactly when it grants one without delay, else scheduled after the delay. |
| Replies.OperatorTells | crates/redloop/src/redis_store/scripts/operator_transition.lua:49-134 | An operator call succeeds exactly in the states that admit it and puts the job where the call says, since now; otherwise it reports the state and changes nothing. |
| Replies.RetryNowIsEnqueue | docs/protocol/redloop/README.md:327 | `retry_now` on a failed job leaves the state an immediate enqueue leaves. |
| Replies.RefusedChangesNothing | crates/redloop/src/redis_store/scripts/operator_transition.lua:49-134 | A refusal by any script, in any state, changes nothing. |
| ReplaceModes.AsksFold | crates/redloop/src/redis_store/scripts/enqueue_or_reschedule.lua:145-170 | Any series of conditional schedules leaves a waiting job at the minimum (if-earlier) or maximum (if-later) of its time and every requested time, none counted earlier than its own request. |
| ReplaceModes.ExtremeBounds | crates/redloop/src/redis_store/scripts/enqueue_or_reschedule.lua:66-74 | That value bounds all of them and is one of them. |
| ReplaceModes.OrderIrrelevant | crates/redloop/src/redis_store/scripts/enqueue_or_reschedule.lua:66-74 | So the order and the repetition of the requests do not matter. |
| Observers.ViewAgrees | crates/redloop/src/redis_store/enqueue.rs:126-179 | On a coherent snapshot `get_job`, which looks in another order than the scripts, sees the same state, with the job's failures and the time it is there since or until; a leased job always shows the attempt that passes the fence. |
| Observers.ViewOverRun | crates/redloop/src/redis_store/enqueue.rs:126-179 | At every point of every run the failures it shows are the explicit failures since the job's failure lifecycle began. |
| Observers.CountsByPlace | crates/redloop/src/redis_store/counts.rs:15-50 | On a coherent snapshot each count is the number of jobs in its place; of the scheduled jobs the one counts those due by the given time, the other those after it. |
| Observers.CountsAddUp | crates/redloop/src/redis_store/counts.rs:15-50 | For every time the five counts of a coherent snapshot add up to the number of distinct jobs. |
| Observers.ListFailed | crates/redloop/src/redis_store/counts.rs:52-120 | Reading one row too many and truncating gives the page from the cursor on, and a next cursor exactly when rows remain. |
| Observers.PagesCoverFailed | crates/redloop/src/redis_store/counts.rs:57-87 | Over an unchanging failed set, following the cursors with any page size ends, and the pages together are all failed jobs, by (failed_at, id), each once. |
| Observers.RowsAgree | crates/redloop/src/redis_store/counts.rs:88-120 | Every row of every page is what `get_job` shows for its job on the same snapshot: failed, with the same failures and time. |
| Keys.KeysApart | crates/redloop/src/redis_store/keys.rs:24-51 | No two namespaces under one prefix share a key, and no two fields of a namespace do. |
| Keys.CatalogApart | crates/redloop/src/redis_store/keys.rs:16-22 | The namespace catalog is no key of any namespace. |
| Keys.OneSlotPerNamespace | crates/redloop/src/redis_store/keys.rs:24-36 | Two keys of a namespace hash alike in Redis Cluster if and only if the tag between the first braces is not empty: under a prefix without `{` the namespace must not be empty, and a prefix that has one must not close it at once. |
| Keys.EmptyNamespaceIsScattered | docs/protocol/redloop/redis-layout.md:19 | A concrete namespace, the empty one, whose keys do not share a hash tag, although the layout demands it. |
| WorkerRecords.ConfigRoundTrip | crates/redloop/src/redis_store/codec.rs:9-47 | A registration record can be read back if and only if the lease duration in milliseconds fits 64 bits. |
| WorkerRecords.SelectStale | crates/redloop/src/redis_store/workers.rs:191-206 | The cleanup selects exactly the workers without a record or silent for too long, and stops before any deletion if some record cannot be read. |
| WorkerRecords.StaleAfterClosedForm | crates/redloop/src/redis_store/workers.rs:199-202 | The saturating arithmetic gives ten lease durations or a day, whichever is longer, capped at 64 bits; durations that wrap count as a day. |
| WorkerRecords.RecentlySeenStays | crates/redloop/src/redis_store/workers.rs:191-205 | A worker without a record is removed; for one with an ordinary record, the exact silence after which it is. |
| Wire.FailureArgsFaithful | crates/redloop/src/redis_store/shared.rs:98-149 | What the failure script decides from its string arguments, retry or not and how long, is what the client's policy says, for every policy and count. |
| Wire.ReadBatch | crates/redloop/src/redis_store/workers.rs:122-143 | The client's loop over the reply's triples yields every grant in order, an error for an incomplete or unreadable reply, or a panic for the reply it cannot slice. |
| Wire.AcceptedIff | crates/redloop/src/redis_store/workers.rs:116-143 | The client accepts a reply if and only if it begins with `ok`, its schedule is `0` or readable, and complete triples with readable deadlines follow and nothing else; then it has the job and token of every triple in order. |
| Wire.PanicIff | crates/redloop/src/redis_store/workers.rs:132 | The client panics for exactly one reply, the bare `ok`, which no script sends. |
| Wire.BatchRoundTrip | crates/redloop/src/redis_store/workers.rs:126-143 | The client reads exactly the grants the script made, each with the deadline it was given. |
| WorkerRuntime.Runtime.constructor | crates/redloop/src/worker/run.rs:71-81 | A worker with a valid configuration starts with empty books. |
| WorkerRuntime.Runtime.RecordJoinResult | crates/redloop/src/worker/run.rs:191-199 | A finished handler's result becomes pending; a panicked handler ends the worker. |
| WorkerRuntime.Runtime.DrainJoinedJobs | crates/redloop/src/worker/run.rs:180-189 | All finished handlers are joined, in order, up to a panic. |
| WorkerRuntime.DrainKeepsResults | crates/redloop/src/worker/run.rs:180-199 | Joining loses no result and changes no earlier one. |
| WorkerRuntime.Runtime.ResolvePendingCompleted | crates/redloop/src/worker/run.rs:201-245 | If it does not end the worker: every result that is gone was applied or fenced off, with its attempt; every other is still pending and active; it asks for a retry exactly when some are left, one of them for a transient error. |
| WorkerRuntime.Runtime.HeartbeatActive | crates/redloop/src/worker/heartbeat.rs:12-62 | Exactly the attempts that were told so stop being heartbeated, and none stops being counted; without an error every enabled attempt was answered. |
| WorkerRuntime.Runtime.SpawnJob | crates/redloop/src/worker/spawning.rs:13-30 | A lease enters the books and the join set together. |
| WorkerRuntime.Runtime.TakeReservation | crates/redloop/src/worker/run.rs:137-167 | A reply spawns all its jobs within capacity and resets the poll delay, or starts a pause; a transient error pauses and doubles the delay; the books stay right in every case. |
| WorkerRuntime.Runtime.EndReserveSleep | crates/redloop/src/worker/run.rs:168-174 | A pause ends and lengthens the poll delay when it was one for lack of work. |
| WorkerRuntime.Runtime.BeginTurn | crates/redloop/src/worker/run.rs:84-95 | The top of the loop leaves what `Begun` says: every finished handler's result joined; then, unless the worker still backs off, every result that was applied or fenced off gone with its attempt, every other kept, and a pause exactly if one is left. |
| WorkerRuntime.Runtime.Select | crates/redloop/src/worker/run.rs:104-175 | Each enabled branch leaves exactly the books `Selected` names for it, and ends the worker exactly on a panic or an error it cannot recover from; the books stay right: active attempts = running handlers and pending results, each once, at most `concurrency`. |
| Turns.BeginIsMoves | crates/redloop/src/worker/run.rs:84-95 | The top of a turn is a sequence of actions of the composed system, each allowed where it is taken. |
| Turns.SelectIsMoves | crates/redloop/src/worker/run.rs:104-175 | Every branch a living worker takes is such a sequence, and ends with no reservation awaited. |
| Turns.TurnIsMoves | crates/redloop/src/worker/run.rs:83-176 | So a whole turn of the loop is one: its top, the store's grant if the turn ends with a reservation, and one branch. |
| Turns.NeverStuck | crates/redloop/src/worker/run.rs:104-175 | The `select!` always has an enabled branch, and no guard shuts out a running handler, an active attempt's heartbeat, or room for a job once the worker neither pauses nor backs off. |
| Turns.ReserveGuard | crates/redloop/src/worker/run.rs:137-143 | The guard of the reserve branch and that of the store's reservation are the same: room for a job, no pause, no backing off. |
| WorkerState.RepliedTracks | crates/redloop/src/worker/run.rs:144-156 | Delivered jobs are counted once each and every pause is at most the longest poll interval. |
| WorkerState.SleptTracks | crates/redloop/src/worker/leases.rs:69-71 | The doubled poll delay stays between its two bounds. |
| Pacing.DelayDoubles | crates/redloop/src/worker/leases.rs:69-71 | After k reservations in a row without a job, whether they found none or failed, the poll delay is its start times 2^k, at most the longest one. |
| Pacing.DelayResets | crates/redloop/src/worker/run.rs:144-146 | A worker starts at the shortest delay with room for all its jobs, and every reservation that brings a job takes it back there without a pause. |
| Pacing.PauseEnds | crates/redloop/src/worker/leases.rs:73-85 | A pause for lack of work ends after the poll delay, or exactly at the next schedule if that comes first; a pause after an error lasts the delay as it was. Neither changes what the worker runs. |
| Pacing.WakesInTime | crates/redloop/src/worker/run.rs:154-156 | With the hint of the very reservation that found nothing, the pause is over when the first of the schedules left after the searched bound is due, unless the hint is past when the reply arrives. |
| Pacing.FilledUp | crates/redloop/src/worker/run.rs:97-98 | A worker asks for all the room it has: a reservation that brings that many jobs fills it up to exactly its concurrency. |
| Registrations.RegistrationsExact | docs/protocol/redloop/redis-layout.md:286-310 | After every step of every run a namespace knows of each worker exactly the time of its latest accepted reservation or heartbeat and the record of its latest accepted reservation, unless it was pruned since. |
| FleetSafety.AlwaysSound | crates/redloop/src/worker/run.rs:83-176 | Any number of workers on one store, with lost replies, late or repeated commands, transient errors and restarts: after every sequence of actions the steps of the store form a valid run and every worker's books are right. |
| FleetTheorems.NeverOverbooked | crates/redloop/src/worker/run.rs:97-152 | Running handlers and pending results are the active attempts, each once, and never more than the worker's concurrency. |
| FleetTheorems.LiveAttemptsAreKept | crates/redloop/src/worker/run.rs:201-245 | A delivered attempt that still holds its lease has a running handler or a pending result, and is still heartbeated. |
| FleetTheorems.LeavesWhenResolved | crates/redloop/src/worker/run.rs:221-231 | An attempt leaves a worker's books only when its own completion is answered, or with the whole worker. |
| FleetTheorems.OneLiveHolder | docs/protocol/redloop/README.md:203 | At any time at most one worker process holds the live attempt of a job. |
| FleetTheorems.LostForCause | docs/protocol/redloop/README.md:292-298 | If an attempt given to a worker no longer holds its lease, some earlier step was its own completion, an operator's force, or a reap past its deadline. |
| FleetTheorems.CompletionsTakeEffectOnce | docs/protocol/redloop/README.md:287-290 | Of all completions the store executes for one attempt, in time, late or repeated, at most one takes effect. |
| FleetTheorems.HandlersStartOnce | crates/redloop/src/worker/run.rs:144-153 | No handler is ever started twice for one attempt, by any process, restarts included. |
| Overcommitment.LeasesMayExceedConcurrency | crates/redloop/src/worker/run.rs:137-166 | A concrete possible story, a lost reply, after which the store holds two leases for an idle worker of concurrency one; `LeaseBounds.LeasesCounted` says exactly when this happens. |
| LeaseAccounts.AnsweredOnce | crates/redloop/src/worker/run.rs:137-166 | After every sequence of actions each lease in the store has exactly one owner: one process that counts the attempt, one process still waiting to be told of it, or nobody because its reply or its process was lost or another client reserved it. |
| LeaseBounds.LeasesCounted | crates/redloop/src/worker/run.rs:97-152 | The leases the store holds for a worker id are exactly those its processes answer for, which never exceed their concurrency, plus the live lost ones; so they stay within that concurrency if and only if the live lost ones fit into what is not used. |
| LeaseBounds.LeasesWithinConcurrency | docs/protocol/redloop/README.md:204-205 | With one process for the worker id, and no lost reply, restart or reservation by another client so far, the store never holds more leases for a worker than its concurrency. |
| LostReplies.DroppedIsUndelivered | crates/redloop/src/worker/run.rs:137-166 | A grant whose reply is dropped, or whose process dies waiting for it, is undelivered: no handler ever started for it. |
| LostReplies.UndeliveredUnspoken | crates/redloop/src/redis_store/scripts/reserve.lua:78-90 | No command that reaches the store, late or repeated ones included, speaks for an undelivered grant. |
| LostReplies.LostReplyRecovered | crates/redloop/src/redis_store/scripts/reap_expired.lua:29-49 | So the jobs of a lost reply come back: past the deadline they were granted with, once the reaps of the given limit add up to the lease's rank, the job has been recovered into ready, whatever processes and other clients do, unless an operator forces it. |
| FleetSafety.CompletionSettles | crates/redloop/src/worker/completion.rs:11-73 | Whatever a handler returned, after the command sent for it the attempt does not hold the lease; what becomes of the job is stated by `Outcomes`. |
| Outcomes.ResultReported | crates/redloop/src/worker/completion.rs:11-73 | Whenever the store executes the command about a result while the attempt holds its lease: completed, the failures are forgotten and the job is gone, or ready now by its rerun mark; run again, forgotten and scheduled for the time asked or ready now; failed, counted once and failed; error, counted once and failed exactly if the policy gives up, else ready or scheduled after exactly the delay the policy means. No other job changes. |
| Outcomes.ResultApplied | crates/redloop/src/worker/completion.rs:11-73 | In particular for a completion that is answered in time, from the store before the action to the store after it. |
| Outcomes.OutcomeReaches | crates/redloop/src/worker/run.rs:201-245 | What a handler returns is what becomes of its job: until the result's command is answered or the process dies, any command the process sends about it, whenever it is executed, has the effect of that very outcome if the lease is still held. |
| FleetSafety.HeartbeatTells | crates/redloop/src/worker/heartbeat.rs:45-56 | A heartbeat answered with a mismatch means that the lease has ended. |
| Deadlines.BeatExtends | crates/redloop/src/worker/heartbeat.rs:31-44 | A heartbeat a process sends, whenever the store executes it while the attempt holds its lease, keeps it and moves the deadline to the heartbeat's time plus the configured lease duration; no other job changes. |
| Deadlines.AnsweredBeatExtends | crates/redloop/src/worker/heartbeat.rs:31-44 | In particular for an answered heartbeat, read off the store after the action. |
| Deadlines.GrantLasts | crates/redloop/src/redis_store/workers.rs:93-104 | A reservation leases every job it reports for exactly the configured lease duration of its worker. |
| Deadlines.AttendedLeaseKept | crates/redloop/src/redis_store/leases.rs:34-37 | In the composed system, restarts and late commands included: a delivered attempt that nobody completes or forces holds its lease through every reap within one configured lease duration of its latest sign of life, until exactly that long after it, and is still heartbeated. |
| Deadlines.OnScheduleKept | crates/redloop/src/config.rs:125-129 | So a worker that beats as often as it is configured to loses no lease to a reap: a valid heartbeat interval is short enough. |
| FleetSafety.ReservationFits | crates/redloop/src/worker/run.rs:137-152 | What the store grants fits the worker that asked: within its capacity, new to it, and made under its policy. |

## Left out

- Observers.PagesCoverFailed: asks for fewer failed jobs than `usize::MAX`; overflow of cursor plus page size, and offsets beyond what
  Redis accepts, are not modelled.
- Observers.ViewAgrees: about one snapshot; the pipeline behind `get_job` is not atomic.
- Observers.CountsByPlace: about one snapshot; the pipeline behind `counts` is not atomic.
- Store.Namespace.PurgeFailed: the delete half only, for an arbitrary selection, because the selection is an earlier read; it may
  therefore delete the counter of a job that is no longer failed, and the budget theorems allow it.
- Store.Namespace.PruneWorkers: the delete half only, for an arbitrary selection; `WorkerRecords.SelectStale` is the selection on one
  snapshot.
- Observers.CountsAddUp: about one snapshot, as `Observers.CountsByPlace`.
- FleetTheorems.NeverOverbooked: counts what a worker runs; the leases the store holds for it are counted by
  `LeaseBounds.LeasesCounted`.
- Waits.ReadyIsReserved: asks that clocks of later steps have passed the job's activation time, and for a job that is ready; when a
  reservation comes is up to the workers.
- WorkerRuntime.Runtime.ResolvePendingCompleted: a fatal error ends the worker; what its books look like then is left open.
- Floating point: scores and delays are exact integers; sums and products beyond 2^53 would be rounded by Lua and Redis. The two
  places where Lua writes a smaller number with 14 digits are modelled.
- Saturation of the lease deadline at the largest 64-bit time (`leases.rs:35-37`), and timestamps outside the calendar library's range.
- Numerals that Lua's `tonumber` reads and no client writes: hexadecimal, exponents, surrounding blanks.
- An operator operation outside the six the client sends (`operator_transition.lua:134`).
- The field `version` of `cfg`, the namespace catalog, listing of workers, logging, error texts and failure messages.
- Redis connections, timeouts, Sentinel and Cluster routing, and the async scheduler: a command is executed or not, its reply arrives or not.
- Real time between the branches of the worker loop: timers are events that may happen whenever their guards allow; progress of the loop is not
  claimed.
- Command-line tool, builders, handler adapters, job-id length check: delegation and validation without queue state.
