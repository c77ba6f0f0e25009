# Cloud Update: the rate limiter and the one-job-at-a-time protocol

Cloud Update is a small service that runs system updates when a webhook asks for one. This
project models its two concurrent cores and proves what they promise:

* the **keyed rate limiter**, a bounded map of per-client token buckets with eviction of the
  oldest entry and removal of idle ones;
* the **job protocol**: the webhook handlers, the job store and the worker pool, which together
  guarantee that jobs run one after the other although the pool has ten workers.

Code that changes state step by step is modelled twice: by classes whose methods change their
fields in place (`RateLimiter.Limiter`, `Jobs.JobWithMutex`, `JobStore.JobStore`,
`WorkerPool.WorkerPool`, and the two handlers in `Handlers`), and by pure functions on values
that say what one call or one critical section does. The methods are proved to do what the
functions say; the properties are proved about the functions, over all runs.

A *run* is a sequence of steps, each enabled in the state the earlier ones lead to. A step is
one critical section of a lock or one channel operation, so a run is any interleaving of any
number of requests and workers. Every prefix of a run is a run, so a statement about the end of
every run is a statement about every reachable state.

## The files

| file | what it holds |
|---|---|
| `Common.dfy` | small helpers |
| `TokenBucket.dfy` | the exact token bucket that stands for `rate.Limiter` |
| `RateLimiter.dfy` | sequential `Allow` and cleanup, on values and in place |
| `ClientView.dfy` | the limiter as one client meets it |
| `Forgetting.dfy` | the limiter against buckets that are kept for ever |
| `Recency.dfy` | the limiter as an LRU cache, and its size |
| `LimiterSteps.dfy` | interleaved calls of `Allow` |
| `LimiterOverflow.dfy` | how many entries interleaved calls can leave |
| `Jobs.dfy` | a job and its setters |
| `JobStore.dfy` | the job store, its history and its lookups |
| `Ledger.dfy` | the store together with the status of every job |
| `LedgerRuns.dfy` | which finished jobs the history holds |
| `WorkerPool.dfy` | the worker pool |
| `PoolSizes.dfy` | how many tasks a pool runs and queues at once |
| `Handlers.dfy` | the two webhook handlers, one call at a time |
| `WebhookPool.dfy` | handler, store and pool, interleaved |
| `LogPanics.dfy` | what a panic while logging breaks there |
| `PoolCourses.dfy` | which step of a worker or a request follows which there |
| `JobEndings.dfy` | which jobs can still end there, and which are stuck |
| `Crashes.dfy` | when a request can crash there on the closed channel |
| `PoolHistory.dfy` | the history of the store there |
| `WebhookGoroutine.dfy` | the handler that spawns goroutines, and the store, interleaved |
| `GoroutineCourses.dfy` | which step of a goroutine or a request follows which there |
| `GoroutineHistory.dfy` | the history of the store there |

## Assumptions

* `rate.Limiter` is an exact token bucket: it starts full, gains `limit` tokens a second up to
  `burst`, and an allowed request takes one token. Credit is counted in units of 1e-9 token and
  time in nanoseconds, so no rounding occurs. `limit` and `burst` are not negative.
* Clocks do not go back. A sequential call of `Allow` reads the clock once.
* Every request makes a job object of its own, and job IDs are distinct.
* The handler is the only one to submit tasks to its pool. Request, job and task share a number.
* Channels are first in, first out, and a send on a closed channel panics ("Channel types" and
  "Close" in The Go Programming Language Specification); a submission that panics this way was
  not accepted.
* `ProcessAction` returns or panics. It is one phase of a worker, between the steps before and
  after it, so it can overlap with any other steps.
* Whether logging after `CompleteCurrentJob` can panic is the parameter `logPanics`.

## Where the code falls short

Each of these is proved, with the exact condition where there is one.

* `evictOldest` never removes the entry of the empty identifier (`limiter.go:204`). The number
  of entries stays within `maxSize` on every sequential run over a set of identifiers exactly when
  they all fit anyway, or the empty string is not one of them (`Recency.SizeBoundIff`).
* Cleanup changes no answer exactly when a bucket idle for longer than the TTL has had time to
  fill (`Forgetting.CleanupInvisibleIff`); this holds for the default settings.
* The fast path of `Allow` can record the use of an entry that has been dropped in the meantime.
  Interleaved calls keep the size bound exactly when all identifiers fit
  (`LimiterOverflow.SizeKeptIff`). What they exceed it by is at most the number of such stale
  touches (`LimiterSteps.InterleavedSizeBound`), and can be all of it
  (`LimiterOverflow.StaleTouchesOverflow`).
* `CompleteCurrentJob` and `FailCurrentJob` are not told which job to end. If logging after the
  completion can panic, the recovery can fail a job that another request has started since; two
  actions can then overlap, unless the pool has one worker, a job can be held that is not current,
  and the queue can fill up. Each of these is ruled out on every run exactly when such a panic is,
  or, for the overlap, when there is one worker (`LogPanics.RightJobIff`, `LogPanics.ExclusiveIff`, `LogPanics.TicketedIff`,
  `LogPanics.RoomyIff`, and `WebhookGoroutine.RightJobIff`, `WebhookGoroutine.ExclusiveIff`,
  `WebhookGoroutine.TicketedIff`).
* The current job of the pool's handler can get stuck. It can still end exactly if a worker is at
  a job or about to log with a panic, or a request can submit or give up, or a task is queued and
  some worker is left (`JobEndings.CanEndIff`). If logging cannot panic, two kinds of job are stuck
  for good, and no other (`JobEndings.CanEndUnlessDoomed`). A submission that passes the shutdown
  check and then meets the closed channel panics; this can happen exactly if the flag is not set
  yet, or a request is between the two (`Crashes.CrashIff`). Its job stays current and running,
  unless a panic while logging fails it (`LogPanics.KeptIff`). And after a timed out shutdown every
  worker may leave while a job is queued (`Crashes.AbandonedReachable`). When nothing moves any
  more, whatever has panicked, the current job is of one of these kinds (`JobEndings.DeadEnds`).
  The handler that spawns goroutines has no such state (`WebhookGoroutine.CurrentCanEnd`).
* Shutdown returns nil in two ways. Only for the call that set the flag does it mean that every
  accepted task has been run; any other call returns at once, while tasks may still be queued
  (`WorkerPool.NilMeansRunIff`).
* README.md:28 of the repository speaks of a queue of jobs. The code keeps none: a request that
  finds a running job is refused, and the pool's queue is empty whenever a job is
  submitted, unless logging panics (`WebhookPool.NeverFull`). The model follows the code.

## Model

The main results come first, then the results they rest on, then the operations. "If logging
cannot panic" refers to logging after CompleteCurrentJob; all other rows hold whatever panics.

| member | source | states |
|---|---|---|
| Forgetting.ForgettingNeverCosts | src/internal/infrastructure/ratelimit/limiter.go:62-103 | on every sequential run with any evictions and cleanups, for each identifier and every prefix, the limiter allows at least as many requests as buckets that are never forgotten |
| Forgetting.WindowBound | src/internal/infrastructure/ratelimit/limiter.go:62-103 | in any window of any sequential run, 1e9 times the requests a client is allowed is at most 1e9 * burst * (1 + removals of its entry in the window) + limit * (nanoseconds of the window) |
| Forgetting.RefusedOnlyWhenSpent | src/internal/infrastructure/ratelimit/limiter.go:62-103 | on every sequential run a request is refused only if since some event before it the client was allowed all of a burst and of what the limit refills since then, up to less than one token |
| Forgetting.CleanupInvisibleIff | src/internal/infrastructure/ratelimit/limiter.go:211-232 | cleanup changes no answer of any sequential run without eviction exactly when limit * (TTL + 1) >= 1e9 * burst, so that the shortest idle time that is cleaned up refills a whole burst (a negative TTL counts as no idle time), or no entry can be held at all |
| Forgetting.CleanupInvisibleByDefault | src/internal/infrastructure/ratelimit/limiter.go:36-42 | cleanup changes no answer under the default settings |
| Recency.LruAgreement | src/internal/infrastructure/ratelimit/limiter.go:62-93 | for non-empty identifiers, a strictly increasing clock and no cleanup, the entries are exactly the `maxSize` most recently used identifiers of the request history, or all of them if fewer, each with its last use on record |
| Recency.SizeBoundIff | src/internal/infrastructure/ratelimit/limiter.go:204-207 | the size bound holds on all sequential runs over a set of identifiers if and only if they all fit, or the empty string is not one of them and there is room for an entry |
| LimiterSteps.InterleavedSizeBound | src/internal/infrastructure/ratelimit/limiter.go:64-93 | in every state of every interleaving the entries above the limit and the recorded uses without an entry number at most the stale touches so far; without one the key sets agree and the limit holds |
| LimiterOverflow.SizeKeptIff | src/internal/infrastructure/ratelimit/limiter.go:64-93 | the size bound holds on every interleaving of calls over a set of identifiers, under a clock that never goes back, if and only if the identifiers all fit |
| LimiterOverflow.StaleTouchesOverflow | src/internal/infrastructure/ratelimit/limiter.go:68-73 | for every limiter and every set of non-empty identifiers that fills it, some run under such a clock ends with all of them as entries, with one stale touch for each entry above the limit |
| WebhookPool.OneTicket | src/internal/application/handler/webhook_handler_pool.go:125-203 | if logging cannot panic: on every run there is one ticket at most, held by a request, the queue or a worker, it is for the current job, and every call that ended a job ended the caller's own |
| WebhookPool.MutualExclusion | src/internal/application/handler/webhook_handler_pool.go:125-198 | if logging cannot panic: on every run, for any number of requests and workers, at most one of them holds a started job, one does exactly while a job is current, and at most one worker is inside ProcessAction |
| LogPanics.TicketedIff | src/internal/application/handler/webhook_handler_pool.go:125-203 | on every run one request, queue slot or worker holds a started job exactly while a job is current, if and only if logging after the completion cannot panic |
| LogPanics.ExclusiveIff | src/internal/application/handler/webhook_handler_pool.go:170-203 | on every run at most one worker is inside ProcessAction, if and only if logging after the completion cannot panic or the pool has one worker |
| LogPanics.RightJobIff | src/internal/application/handler/webhook_handler_pool.go:146-198 | on every run the caller of CompleteCurrentJob or FailCurrentJob ends its own job, if and only if logging after the completion cannot panic |
| PoolCourses.PanicFails | src/internal/application/handler/webhook_handler_pool.go:174-180 | if logging cannot panic: the job of an action that panicked is, at every later point of the run, running or failed, and so never completed |
| PoolCourses.ReturnCompletes | src/internal/application/handler/webhook_handler_pool.go:193-198 | if logging cannot panic: the job of an action that returned is, at every later point of the run, running or completed, and so never failed |
| PoolCourses.DoneContextFails | src/internal/application/handler/webhook_handler_pool.go:186-190 | if logging cannot panic: the job of a task whose context is done, by its own timeout or by a cancelled pool, is at every later point of the run running or failed, and no worker ever acts on it |
| PoolCourses.NextOfWorker | src/internal/application/handler/webhook_handler_pool.go:170-203 | on every run, whatever panics and whatever others do in between, the next step of a worker is the one its course calls for: a failure after a panic or a done context, a completion after an action that returned, a failure again after a panic while logging |
| PoolCourses.NextOfRequest | src/internal/application/handler/webhook_handler_pool.go:92-151 | on every run the next step of a request is the one its course calls for: it goes on after its first check only if the job it saw was not running, and after TryStartJob only if no job was current, and fails its job exactly after a refused submission |
| PoolCourses.RequestGoesOnIff | src/internal/application/handler/webhook_handler_pool.go:92-151 | on every run a request has a next step if and only if it did not see a running job, did not find a current one at its TryStartJob, got an ID, and has not been through its submission |
| WebhookPool.WorkerEndsOwnJob | src/internal/application/handler/webhook_handler_pool.go:174-198 | if logging cannot panic: what each ending call of a worker does on every run: the worker's own job goes from running to completed without an error, or to failed with the error of the call, with the end time of the call, and no other job changes |
| WebhookPool.RequestEndsOwnJob | src/internal/application/handler/webhook_handler_pool.go:146-150 | if logging cannot panic: on every run a failed submission fails the request's own job with its error and time, and no other job changes |
| WebhookPool.NeverFull | src/internal/application/handler/webhook_handler_pool.go:142-151 | if logging cannot panic: the queue is empty whenever a request submits, so the pool never answers that it is full, whatever its backlog |
| LogPanics.RoomyIff | src/internal/application/handler/webhook_handler_pool.go:142-151 | on every run no submission finds the queue full, whatever the backlog, if and only if logging after the completion cannot panic |
| JobEndings.CanEndIff | src/internal/application/handler/webhook_handler_pool.go:125-203 | on every run, whatever panics, the current job can still be completed or failed by some further steps, if and only if a worker is at a job or about to log with a panic, or a request can submit or give up, or a task is queued and some worker is left |
| JobEndings.CanEndUnlessDoomed | src/internal/application/handler/webhook_handler_pool.go:125-203 | if logging cannot panic: the current job can still be ended if and only if its request has not crashed on the closed channel and is not bound to, and its queue has not been left by every worker |
| JobEndings.CurrentHeld | src/internal/application/handler/webhook_handler_pool.go:125-203 | on every run, whatever panics, the current job is with its request, in the queue, or with a worker at it |
| JobEndings.DeadEnds | src/internal/application/handler/webhook_handler_pool.go:125-203 | whatever panicked, when no request on its way and no worker can take a step, no job is current, or its request crashed, or it is queued in a cancelled pool that every worker has left |
| Crashes.CrashIff | src/internal/infrastructure/worker/pool.go:91-105 | on every run, whatever panics, a request has crashed or crashes on some continuation, if and only if Shutdown has not set the flag yet, or a request is between its check of the flag and its send, or has crashed |
| WebhookPool.CrashKeepsJobCurrent | src/internal/infrastructure/worker/pool.go:91-105 | if logging cannot panic: a request that met the closed channel leaves its job current and running at every later point of the run |
| LogPanics.KeptIff | src/internal/infrastructure/worker/pool.go:91-105 | on every run the job of a request that crashed is current, if and only if logging after the completion cannot panic |
| WebhookPool.ShutdownEndsJobs | src/internal/infrastructure/worker/pool.go:128-155 | when the Shutdown call that set the flag has returned nil, every job whose submission was accepted has been completed or failed, whatever panicked |
| WebhookPool.EndedIsFinal | src/internal/infrastructure/store/job_store.go:58-95 | a job that has ended never changes again on any run, whatever panics |
| WebhookPool.AcceptedIsFound | src/internal/application/handler/webhook_handler_pool.go:142-158 | on every run, whatever panics, the job of an accepted request is found by its ID until the history drops it |
| WebhookPool.CanceledBeginsNothing | src/internal/application/handler/webhook_handler_pool.go:184-195 | once a timed out shutdown has cancelled the pool, no job begins its action any more |
| WebhookPool.StatusOnRuns | src/internal/domain/entity/job.go:28-51 | on every run, whatever panics, the statuses of all jobs are as `Ledger.StatusTraces` says |
| WebhookPool.StoreOnRuns | src/internal/infrastructure/store/job_store.go:37-142 | on every run, whatever panics, starts are the finished jobs and the current one, finished jobs are all accounted for, no job is held twice, and both lookups find exactly the jobs held |
| PoolHistory.HistoryOnRuns | src/internal/infrastructure/store/job_store.go:98-142 | on every run, whatever panics, a finished job is missing from the history only if a cleanup found it there and the step that made the job was no later than its cutoff, or at least `maxHistory` jobs finished after it; and a job a cleanup so found is missing |
| PoolHistory.HistoryIsLastOnRuns | src/internal/infrastructure/store/job_store.go:98-105 | on every run without cleanup the history is exactly the last `maxHistory` finished jobs |
| WebhookPool.QuietIffFinished | src/internal/application/handler/webhook_handler_pool.go:125-203 | if logging cannot panic: every started job has been completed or failed exactly when no request, queue slot or worker holds one |
| JobEndings.QuietMeansFinished | src/internal/application/handler/webhook_handler_pool.go:125-203 | when no request, queue slot or worker holds a job, every started job has been completed or failed, whatever panicked |
| WebhookGoroutine.MutualExclusion | src/internal/application/handler/webhook_handler_with_status.go:121-176 | if logging cannot panic: on every run the current job, and no other, is held by its request or its goroutine, and at most one goroutine is inside ProcessAction |
| WebhookGoroutine.TicketedIff | src/internal/application/handler/webhook_handler_with_status.go:121-176 | on every run the current job, and no other, is held, if and only if logging after the completion cannot panic |
| WebhookGoroutine.ExclusiveIff | src/internal/application/handler/webhook_handler_with_status.go:158-180 | on every run at most one goroutine is inside ProcessAction, if and only if logging after the completion cannot panic |
| WebhookGoroutine.RightJobIff | src/internal/application/handler/webhook_handler_with_status.go:158-180 | on every run the caller of CompleteCurrentJob or FailCurrentJob ends its own job, if and only if logging after the completion cannot panic |
| GoroutineCourses.PanicFails | src/internal/application/handler/webhook_handler_with_status.go:160-166 | if logging cannot panic: the job of an action that panicked is, at every later point of the run, running or failed, and so never completed |
| GoroutineCourses.ReturnCompletes | src/internal/application/handler/webhook_handler_with_status.go:172-176 | if logging cannot panic: the job of an action that returned is, at every later point of the run, running or completed, and so never failed |
| GoroutineCourses.NextOfGoroutine | src/internal/application/handler/webhook_handler_with_status.go:158-180 | on every run, whatever panics and whatever others do in between, the next step of a goroutine is the one its course calls for, and it takes none after its last |
| GoroutineCourses.FirstOfGoroutine | src/internal/application/handler/webhook_handler_with_status.go:139-172 | on every run the first step of a goroutine after it is spawned is its action |
| GoroutineCourses.NextOfRequest | src/internal/application/handler/webhook_handler_with_status.go:88-139 | on every run the next step of a request is the one its course calls for: it goes on after its first check only if the job it saw was not running, and spawns a goroutine only if no job was current at its TryStartJob |
| GoroutineCourses.RequestGoesOnIff | src/internal/application/handler/webhook_handler_with_status.go:88-139 | on every run a request has a next step if and only if it did not see a running job, did not find a current one at its TryStartJob, got an ID, and has not spawned its goroutine |
| WebhookGoroutine.GoEndsOwnJob | src/internal/application/handler/webhook_handler_with_status.go:158-176 | if logging cannot panic: what each ending call of a goroutine does on every run: the goroutine's own job goes from running to completed without an error, or to failed with the error of the recovery, with the end time of the call, and no other job changes |
| WebhookGoroutine.CurrentCanEnd | src/internal/application/handler/webhook_handler_with_status.go:121-180 | on every run, whatever panics, the current job can still be completed or failed, by at most three more steps of its request and its goroutine |
| WebhookGoroutine.AlwaysHeld | src/internal/application/handler/webhook_handler_with_status.go:121-180 | on every run, whatever panics, the current job is with its request or its goroutine |
| WebhookGoroutine.StatusOnRuns | src/internal/domain/entity/job.go:28-51 | on every run, whatever panics, the statuses of all jobs are as `Ledger.StatusTraces` says |
| WebhookGoroutine.StoreOnRuns | src/internal/infrastructure/store/job_store.go:37-142 | on every run, whatever panics, starts are the finished jobs and the current one, finished jobs are all accounted for, no job is held twice, and both lookups find exactly the jobs held |
| WebhookGoroutine.StartedIsFound | src/internal/infrastructure/store/job_store.go:37-71 | on every run, whatever panics, a started job is found by its ID until the history drops it |
| GoroutineHistory.EndedIsFinal | src/internal/infrastructure/store/job_store.go:58-95 | a job that has ended never changes again on any run, whatever panics |
| GoroutineHistory.HistoryOnRuns | src/internal/infrastructure/store/job_store.go:98-142 | the same for the handler that spawns goroutines |
| GoroutineHistory.HistoryIsLastOnRuns | src/internal/infrastructure/store/job_store.go:98-105 | the same for the handler that spawns goroutines |
| WebhookGoroutine.QuietIffFinished | src/internal/application/handler/webhook_handler_with_status.go:121-180 | if logging cannot panic: every started job has ended, and the store takes a new one, exactly when no request and no goroutine holds a job |
| WebhookGoroutine.QuietMeansFinished | src/internal/application/handler/webhook_handler_with_status.go:121-180 | when no request and no goroutine holds a job, every started job has been completed or failed, whatever panicked |
| WorkerPool.QueueConservation | src/internal/infrastructure/worker/pool.go:61-104 | on every run the accepted tasks are those taken, in order, and then the queue; taken tasks split into running and finished; the queue keeps within the backlog and the running tasks within the workers the pool was made with |
| PoolSizes.RunningIff | src/internal/infrastructure/worker/pool.go:30-55 | some run of a pool has n tasks running at once, if and only if n is at most the number of workers asked for, or ten if that is not positive |
| PoolSizes.QueuedIff | src/internal/infrastructure/worker/pool.go:30-55 | some run of a pool has n tasks queued at once, if and only if n is at most the backlog asked for, or 100 if that is not positive |
| PoolSizes.SizesOnRuns | src/internal/infrastructure/worker/pool.go:30-55 | on every run the idle, running and gone workers number exactly as many as asked for, or ten, and the queue is no longer than asked for, or 100 |
| WorkerPool.ShutdownComplete | src/internal/infrastructure/worker/pool.go:128-155 | when the Shutdown call that set the flag has returned nil, every accepted task has been run by exactly one worker, panicking ones included, and the queue is empty |
| WorkerPool.NilMeansRunIff | src/internal/infrastructure/worker/pool.go:128-155 | for every size of the pool: nil from a Shutdown call of a given kind means on every run that all accepted tasks have been run exactly once, if and only if it is the call that set the flag |
| WorkerPool.PanicKeepsWorkers | src/internal/infrastructure/worker/pool.go:57-88 | on every run, whichever tasks panic and unwind, the workers that are gone are those that left their loop by themselves, all others are idle or running, and none is gone while the channel is open |
| WorkerPool.ShutdownTerminates | src/internal/infrastructure/worker/pool.go:139-153 | after the channel is closed the workers take boundedly many steps on any run, and can take none exactly when all have exited, with or without cancellation |
| LedgerRuns.HistoryRetention | src/internal/infrastructure/store/job_store.go:98-142 | the same for every run of the store with its jobs, whoever calls it |
| LedgerRuns.MadeByCreate | src/internal/domain/entity/job.go:16-25 | on every run the job made by a step has the ID and the action it was made with, and the time of that step as its start time, at every later point |
| LedgerRuns.JobWasMade | src/internal/domain/entity/job.go:16-25 | every job of a run was made by a step of the run |
| LedgerRuns.EndedIsFinal | src/internal/infrastructure/store/job_store.go:58-95 | on every run of the store with its jobs, a job that has ended never changes again |
| JobStore.HistoryIsLastFinished | src/internal/infrastructure/store/job_store.go:98-105 | without cleanup the history is exactly the last `maxHistory` finished jobs |
| JobStore.StartsConserved | src/internal/infrastructure/store/job_store.go:58-105 | starts are the finished jobs followed by the current one; finished jobs are in the history, trimmed or cleaned up; no job is in the store twice |
| Ledger.StatusTraces | src/internal/domain/entity/job.go:28-51 | each job goes through pending, running, and completed or failed in this order; its end time is set exactly when it has ended, and its error exactly when it has failed; jobs in the history have ended; the current job is running |
| Ledger.LookupsAgree | src/internal/infrastructure/store/job_store.go:37-54 | with distinct IDs the forward and the backward scan return the same job for every ID, and find a job exactly while the store holds it |
| TokenBucket.RefillComposes | src/internal/infrastructure/ratelimit/limiter.go:88-96 | a refused request, which only moves the bucket's reading, does not change what the bucket holds later |
| RateLimiter.MapsAgree | src/internal/infrastructure/ratelimit/limiter.go:62-103 | on every sequential run both maps have the same keys, the recorded use of an entry is the last reading of its bucket, and no bucket is over-full |
| ClientView.CreditKept | src/internal/infrastructure/ratelimit/limiter.go:62-103 | however a client's bucket is removed, it has been allowed at least as much as by one kept for ever, and its lead makes up for the credit it lacks |
| ClientView.WindowPotential | src/internal/infrastructure/ratelimit/limiter.go:62-103 | in a window, credit spent and left is at most a burst, a burst for each removal, and the refill |
| ClientView.FullDropsInvisible | src/internal/infrastructure/ratelimit/limiter.go:218-232 | removing only full buckets changes no count and no credit |
| Forgetting.LimiterProjects | src/internal/infrastructure/ratelimit/limiter.go:62-103 | a client's bucket and counts depend on its own requests and the removals of its entry alone, whatever other clients do |
| Forgetting.ReferenceProjects | src/internal/infrastructure/ratelimit/limiter.go:62-103 | the same for the unbounded map of buckets the limiter is compared with |
| Forgetting.ReferenceBound | src/internal/infrastructure/ratelimit/limiter.go:88-96 | buckets that are never forgotten allow a client at most burst + limit * (seconds from the first to the last event) requests over the whole run |
| Forgetting.WaitingAdmits | src/internal/infrastructure/ratelimit/limiter.go:68-74 | on every sequential run a request for an entry is allowed if since its last use the limit has refilled a token (limit * nanoseconds >= 1e9) |
| Forgetting.FirstAdmitted | src/internal/infrastructure/ratelimit/limiter.go:77-96 | a client without an entry is allowed its first request |
| Forgetting.WindowBoundByDefault | src/internal/infrastructure/ratelimit/limiter.go:36-42 | the window bound in numbers for the default settings |
| Forgetting.FullBucketsAgree | src/internal/infrastructure/ratelimit/limiter.go:218-232 | if an idle bucket is sure to be full, every sequential run without eviction gives the answers of the unbounded map of buckets |
| Forgetting.TwoBurstsAllowed | src/internal/infrastructure/ratelimit/limiter.go:211-232 | a burst, a tick once the entry is idle, and a second burst are allowed in full |
| Recency.SizeOfMostRecent | src/internal/infrastructure/ratelimit/limiter.go:84-86 | the n most recently used identifiers of a history number at most n |
| Recency.UseEvicts | src/internal/infrastructure/ratelimit/limiter.go:84-90 | without room, the most recently used identifiers after a use are those before it with the longest unused one replaced |
| LimiterSteps.AlwaysApart | src/internal/infrastructure/ratelimit/limiter.go:88-89 | in every state of every interleaving no two entries share a bucket, and every call in progress holds one that exists |
| LimiterSteps.HitIsApply | src/internal/infrastructure/ratelimit/limiter.go:64-74 | the steps of the fast path without interruption are the sequential call, with its answer |
| LimiterSteps.MissIsApply | src/internal/infrastructure/ratelimit/limiter.go:77-102 | so are those of the slow path |
| LimiterSteps.TickIsApply | src/internal/infrastructure/ratelimit/limiter.go:216-238 | a cleanup tick between other steps is the sequential one |
| LimiterOverflow.OneTooMany | src/internal/infrastructure/ratelimit/limiter.go:68-90 | from any settled state with a full limiter, one stale touch leads to one entry more |
| Jobs.SettersAllowAnyOrder | src/internal/domain/entity/job.go:28-51 | the setters alone let a job run again after it has ended, with its end time set |
| JobStore.FirstOf | src/internal/infrastructure/store/job_store.go:47-51 | the position of the first match, or the length if there is none |
| JobStore.LastOf | src/internal/infrastructure/store/job_store.go:118-122 | the position of the last match, or the length if there is none |
| JobStore.HistoryRetention | src/internal/infrastructure/store/job_store.go:98-142 | on every run of the store alone, where a cleanup is told which jobs to remove: the history is an ordered part of the finished jobs of at most `maxHistory`; a finished job is missing only if a cleanup was to remove it or at least `maxHistory` jobs finished after it |
| Ledger.TryStartValid | src/internal/infrastructure/store/job_store.go:58-71 | TryStartJob keeps the status of every job in line with where the job is |
| Ledger.EndValid | src/internal/infrastructure/store/job_store.go:74-95 | so does ending the current job |
| Ledger.CleanupValid | src/internal/infrastructure/store/job_store.go:128-142 | so does a cleanup |
| Ledger.CurrentIsKnown | src/internal/infrastructure/store/job_store.go:62-65 | TryStartJob refuses exactly when there is a current job |
| Ledger.EndsCurrent | src/internal/infrastructure/store/job_store.go:74-95 | ending the current job changes that job alone, from running to the terminal status asked for |
| Ledger.FoundIffHeld | src/internal/infrastructure/store/job_store.go:108-125 | a job is found by its ID exactly while it is current or in the history |
| Ledger.StartedFound | src/internal/infrastructure/store/job_store.go:37-54 | a started job is found by its ID, or was trimmed or cleaned up |
| PoolHistory.LedgerProjects | src/internal/application/handler/webhook_handler_pool.go:125-198 | on every run the store and its jobs go through a run of their own, step by step |
| GoroutineHistory.LedgerProjects | src/internal/application/handler/webhook_handler_with_status.go:121-176 | the same for the handler that spawns goroutines |
| WorkerPool.StepKeeps | src/internal/infrastructure/worker/pool.go:58-155 | the invariant of the pool is kept by every step |
| WorkerPool.MeasureDecreases | src/internal/infrastructure/worker/pool.go:61-86 | with the channel closed every step of a worker decreases the work left, and no other step increases it |
| WorkerPool.WorkerStepsBounded | src/internal/infrastructure/worker/pool.go:61-86 | with the channel closed the workers take at most as many steps as there is work left |
| WorkerPool.StuckMeansExited | src/internal/infrastructure/worker/pool.go:61-86 | with the channel closed no worker can take a step exactly when all have exited |
| WorkerPool.DrainKeeps | src/internal/infrastructure/worker/pool.go:58-88 | a worker that runs part of the queue and leaves when it may keeps the invariant of the pool |
| WorkerPool.SubmittedKeeps | src/internal/infrastructure/worker/pool.go:91-105 | an uninterrupted submission keeps the invariant of the pool |
| WebhookPool.AlwaysFits | src/internal/application/handler/webhook_handler_pool.go:92-203 | on every run the store, the pool and the requests keep their invariants together: a job is made, started and submitted at most once |
| Crashes.CrashReachable | src/internal/infrastructure/worker/pool.go:91-105 | some run crashes a request, whatever the sizes of the pool |
| Crashes.AbandonedReachable | src/internal/infrastructure/worker/pool.go:148-153 | some run leaves the current job in a queue without workers, whatever the sizes of the pool |
| WebhookGoroutine.AlwaysFits | src/internal/application/handler/webhook_handler_with_status.go:88-180 | on every run the store and the requests keep their invariants together |
| RateLimiter.Limiter.constructor | src/internal/infrastructure/ratelimit/limiter.go:45-59 | a new limiter has the given settings and no entries |
| RateLimiter.Limiter.EvictOldest | src/internal/infrastructure/ratelimit/limiter.go:190-208 | the scan finds an entry no other is older than, in whatever order it meets them, and deletes it from both maps unless it is the empty identifier |
| RateLimiter.Limiter.Allow | src/internal/infrastructure/ratelimit/limiter.go:62-103 | one uninterrupted call is the step `Apply` of the sequential model with its answer, and what it evicts is an oldest entry |
| RateLimiter.Limiter.TakeFrom | src/internal/infrastructure/ratelimit/limiter.go:96 | one bucket is asked, and no other entry changes |
| RateLimiter.Limiter.Cleanup | src/internal/infrastructure/ratelimit/limiter.go:215-232 | collecting and then deleting removes exactly the entries idle for longer than the TTL |
| Jobs.JobWithMutex.constructor | src/internal/domain/entity/job.go:16-25 | a new job has the given ID and action, the given time as its start time, is pending, and has no end time and no error |
| Jobs.JobWithMutex.SetRunning | src/internal/domain/entity/job.go:28-32 | changes the status and nothing else |
| Jobs.JobWithMutex.SetCompleted | src/internal/domain/entity/job.go:35-41 | changes the status and the end time, to the given one, and nothing else |
| Jobs.JobWithMutex.SetFailed | src/internal/domain/entity/job.go:44-51 | changes the status, the error and the end time, to the given ones, and nothing else |
| Jobs.JobWithMutex.IsRunning | src/internal/domain/entity/job.go:61-65 | true exactly of a running job |
| JobStore.JobStore.constructor | src/internal/infrastructure/store/job_store.go:22-27 | a new store is empty and keeps 100 jobs |
| JobStore.JobStore.GetCurrentJob | src/internal/infrastructure/store/job_store.go:30-34 | returns the current job, if there is one |
| JobStore.JobStore.TryStartJob | src/internal/infrastructure/store/job_store.go:58-71 | refuses exactly when the current job is running, and otherwise makes the job current and running and logs the start; what every method keeps is kept for a new job |
| JobStore.JobStore.CompleteCurrentJob | src/internal/infrastructure/store/job_store.go:74-83 | the current job, if there is one, ends completed and enters the history; none is current then |
| JobStore.JobStore.FailCurrentJob | src/internal/infrastructure/store/job_store.go:86-95 | the current job, if there is one, ends failed with the error and enters the history; none is current then |
| JobStore.JobStore.AddToHistory | src/internal/infrastructure/store/job_store.go:98-105 | the job is appended, and the oldest jobs above the limit are trimmed |
| JobStore.JobStore.GetJob | src/internal/infrastructure/store/job_store.go:37-54 | the current job with this ID, else the oldest match in the history, else none |
| JobStore.JobStore.GetJobByID | src/internal/infrastructure/store/job_store.go:108-125 | the current job with this ID, else the newest match in the history, else none |
| JobStore.JobStore.CleanupOldJobs | src/internal/infrastructure/store/job_store.go:128-142 | removes exactly the jobs of the history that were not started after the cutoff, and keeps the order of the rest |
| WorkerPool.WorkerPool.constructor | src/internal/infrastructure/worker/pool.go:30-55 | a new pool has the given sizes, or 10 workers and a backlog of 100 for non-positive ones, an empty queue and all workers idle |
| WorkerPool.WorkerPool.CheckShutdown | src/internal/infrastructure/worker/pool.go:92-97 | the first step of a submission: refused exactly when the pool is shut down |
| WorkerPool.WorkerPool.TrySend | src/internal/infrastructure/worker/pool.go:99-104 | the second step: exactly a panic if the channel is closed, else accepted if there is room, else refused; an accepted task, and no other, is appended to the queue |
| WorkerPool.WorkerPool.WaitSend | src/internal/infrastructure/worker/pool.go:116-124 | the second step of SubmitWait: accepted only on an open channel with room, timed out only if its context is done, a panic only on the closed channel |
| WorkerPool.WorkerPool.Submit | src/internal/infrastructure/worker/pool.go:91-105 | without interruption: which of the three answers is given, and that an accepted submission, and no other, is appended to the queue |
| WorkerPool.WorkerPool.Receive | src/internal/infrastructure/worker/pool.go:65-68 | an idle worker receives the oldest task |
| WorkerPool.WorkerPool.Done | src/internal/infrastructure/worker/pool.go:82-85 | after a task returns the worker is idle again |
| WorkerPool.WorkerPool.RunNext | src/internal/infrastructure/worker/pool.go:62-86 | one turn of a worker runs the oldest task and leaves the worker idle |
| WorkerPool.WorkerPool.Worker | src/internal/infrastructure/worker/pool.go:58-88 | the worker leaves exactly if the context is done or the channel closed, and else waits with an empty queue |
| WorkerPool.WorkerPool.MarkForShutdown | src/internal/infrastructure/worker/pool.go:130-136 | only the first call goes on |
| WorkerPool.WorkerPool.Close | src/internal/infrastructure/worker/pool.go:139 | the channel is closed |
| WorkerPool.WorkerPool.AwaitWorkers | src/internal/infrastructure/worker/pool.go:142-154 | nil if the workers have exited, else the context is cancelled |
| WorkerPool.WorkerPool.Unwind | src/internal/infrastructure/worker/pool.go:71-84 | a task that panics unwinds on its worker |
| WorkerPool.WorkerPool.Recovered | src/internal/infrastructure/worker/pool.go:72-80 | after the recovery the worker is idle again |
| WorkerPool.WorkerPool.RunTasks | src/internal/infrastructure/worker/pool.go:61-86 | the loop of a worker left alone runs queued tasks in order, whichever panic, and stops early only once the context is done |
| Handlers.WebhookHandlerWithPool.constructor | src/internal/application/handler/webhook_handler_pool.go:29-40 | a new handler has an empty store of its own |
| Handlers.WebhookHandlerWithPool.HandleWebhook | src/internal/application/handler/webhook_handler_pool.go:92-151 | one uninterrupted request: which answer is given, that a refused request changes nothing, that a job made has the ID, the action and the time of the request, that an accepted one is current, running and queued, and that one that could not be submitted has failed with its error and time and is finished |
| Handlers.WebhookHandlerWithPool.StartAndSubmit | src/internal/application/handler/webhook_handler_pool.go:125-151 | the same from TryStartJob on, where another job may be current |
| Handlers.WebhookHandlerWithPool.SubmitOrFail | src/internal/application/handler/webhook_handler_pool.go:142-151 | the started job is queued and unchanged, or failed with the error of the submission; between jobs only a shut down pool refuses it |
| Handlers.WebhookHandlerWithPool.ProcessActionWithContext | src/internal/application/handler/webhook_handler_pool.go:170-203 | the current job ends exactly once: failed if its context was done or its action panicked, each with its error, and completed otherwise, even if logging panics after that |
| Handlers.WebhookHandlerWithPool.RunQueued | src/internal/application/handler/webhook_handler_pool.go:142-203 | what a worker takes from the queue ends the current job, failed exactly if its context was done or its action panicked, and leaves store and pool ready for the next request |
| Handlers.WebhookHandlerWithStatus.constructor | src/internal/application/handler/webhook_handler_with_status.go:26-35 | a new handler has an empty store of its own |
| Handlers.WebhookHandlerWithStatus.HandleWebhook | src/internal/application/handler/webhook_handler_with_status.go:88-139 | one uninterrupted request: which answer is given, and that exactly an accepted job, made with the ID, the action and the time of the request, is current and has a goroutine |
| Handlers.WebhookHandlerWithStatus.ProcessActionWithStatus | src/internal/application/handler/webhook_handler_with_status.go:158-180 | the goroutine ends the current job exactly once: failed with its error if the action panicked, and completed otherwise, even if logging panics after that |

## Left out

- RateLimiter.Limiter.Allow: the code reads the clock once for `lastSeen` and once inside the bucket; the model takes both readings to be the same, and stores buckets as values of the map, not as pointers. `LimiterSteps` has separate readings and shared buckets.
- LimiterSteps.InterleavedSizeBound: size and `AlwaysApart` are the only properties claimed for interleaved calls; the comparisons with kept buckets, the window bound and the LRU property are about sequential calls.
- WorkerPool.ShutdownTerminates: assumes that tasks return or panic; nothing is claimed about tasks left in the queue after a timed out shutdown.
- Handlers.WebhookHandlerWithPool.HandleWebhook: one call at a time, so it never meets a channel closed between its two steps; `WebhookPool` has the steps apart.
- Panics while logging anywhere but after `CompleteCurrentJob`, in the recovery or between `TryStartJob` and `Submit`, are not modelled.
- The rounding of `rate.Limiter`, its reservations and its waiting calls: the bucket is exact.
- `GetClientIP`, the middleware functions and `Stats`: address parsing, HTTP and reporting.
- HTTP, JSON, signatures and the random generation of job IDs: only that a request may get no ID, and that IDs are distinct, is kept.
- `HandleJobStatus` and the tickers of the two cleanup loops: a cleanup is a step that can happen at any time.
- The system executors, the action service, setup, configuration, logger and console: process execution, files and global state.
- Memory reuse, pointer aliasing of buckets in the sequential limiter, and the Go scheduler: any enabled step may be next.
