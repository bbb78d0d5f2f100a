# job-worker: a Dafny model of the worker pool, the job store and the job service

The system accepts named jobs with a numeric score and keeps them in Redis. A
pool of workers claims them lowest score first and runs each claimed job in
its own goroutine. Each attempt runs under a per-attempt deadline, and failed
attempts are retried up to a bound. At the end the job is settled as completed
or failed.

Throughput is limited by two buffered channels of capacity `JobLimit`:
- `semaphore` receives one slot per attempt.
- `doneJob` receives one hint whenever a slot may be given back.

A periodic tick takes back one slot for each pending hint. A pause flag,
guarded by a condition variable, stops workers at two points: before they
claim a job, and inside each attempt after its slot is taken.

The model has the following parts.

- `workerpool.dfy`, module `Workerpool`. The pool is a class whose fields are
  the channel lengths (`slots`, `hints`), the `paused` flag, the `done` signal,
  the configuration, the phase of each worker loop, and one `Task` value per
  job goroutine. Every blocking or racing point of the Go code becomes its own
  step, as follows:
  - a poll at the top of the loop;
  - a claim;
  - the first slot and the spawn;
  - the pause check inside an attempt;
  - the end of an attempt;
  - a retry's slot;
  - the settlement;
  - a tick.

  Steps may interleave in any order. A blocking channel send becomes a
  precondition that the channel has room. The race between the executor and
  the deadline becomes an `Outcome` parameter: `Success`, `Failure` or
  `Timeout`. The pool invariant `Valid()` says two things:
  - `slots <= jobLimit`;
  - `slots == hints + Held(tasks)`, where `Held` counts the slots that
    goroutines hold without a matching hint.

  Every step keeps this invariant. From it the model proves that every send on
  `doneJob` finds room, and that a tick never takes a slot from an empty
  semaphore. `Retry` is a reference definition of what `retry.Do` does with at
  most `MaxRetries` attempts.
- `store.dfy`, module `Store`. The Redis store is a class holding:
  - the sorted set, as a set of jobs, each scored by its own score;
  - the `task:<id>` hash records, reduced to their status field.

  Each operation's effect is a predicate on before and after states: `Added`,
  `Claimed` and `Marked`. Redis call failures are boolean parameters.
- `service.dfy`, module `Service`. The job service builds pending jobs and
  passes claims and status queries through to the store. The ID generator's
  answer is a parameter.
- `runs.dfy`, module `Runs`. A client drives one job through every step. It
  ties the slots and hints the job leaves behind to `Retry`.

`retry-go` is not part of this model. The model assumes three things about it:
- `retry.Attempts(n)` allows at most `n` attempts in total;
- `OnRetry` runs after every failed attempt, the last one included;
- any error is retried.

This is what the comment at `workerpool/workerpool.go:171` relies on.

### What the code does with retries and slots

- **`MaxRetries`.** The name `max_retries` suggests the number of retries
  after the first attempt. Read that way, an always-failing job would make
  `r + 1` attempts and write `r` hints, so one slot would stay reserved. The
  code passes `MaxRetries` to `retry.Attempts` as the total number of attempts
  (`workerpool/workerpool.go:152`), and `OnRetry` writes a hint after each of
  them, as the comment at `workerpool/workerpool.go:171` says. So a job whose
  attempts run out writes as many hints as it took slots, and leaves nothing
  reserved (`SettledRun`, `RunSingleJob`). The model follows the code.
- **The slot that stays reserved.** In the code, the only slot that is never
  given back belongs to a job whose attempt succeeded but whose `CompleteJob`
  failed. That goroutine returns before it writes the final hint. Once every
  goroutine has ended, a tick leaves exactly these slots reserved
  (`HeldWhenSettled`, `SettledUnmatched`, `WorkerPool.Tick`). If `JobLimit`
  jobs have failed this way, the semaphore is full with no hint pending, so no
  tick takes anything back and no slot send can proceed
  (`WorkerPool.LeaksFillSemaphore`).
- **Stop while paused.** A worker that enters `wait()` while the pool is
  paused blocks in `cond.Wait`. Only `Unpause`'s broadcast wakes it, and it
  never reaches the `done` check, so after `Stop` it is still blocked and
  `Stop`'s `wg.Wait()` waits for it (`WorkerPool.Resume`,
  `Runs.StopWhilePaused`).

The pause check comes before the claim, so a `Pause` that arrives between the
check and `GetJob` does not stop that claim. The step model shows this: `Poll`
and `Claim` are separate steps.

## Model

| member | source | states |
|---|---|---|
| `Store.KeyInjective` | internal/repository/redis/redis.go:63 | Two job ids share a `task:<id>` record key exactly when they are the same id. |
| `Store.LowestExists` | internal/repository/redis/redis.go:67 | A non-empty queue always has a member whose score is lowest, so ZPOPMIN always has a job to remove. |
| `Store.AddThenClaim` | internal/repository/redis/redis.go:39-103 | Take a job scored below everything queued. If it is added and both Redis calls succeed, the next claim returns exactly that job (same id, name, score and status). The queue goes back to what it was, and the job's record reads in_progress. |
| `Store.MarkedTouchesOnlyItsRecord` | internal/repository/redis/redis.go:105-117 | A successful CompleteJob or FailJob sets the given id's status. It changes no other id's status and leaves the queue alone. |
| `Store.JobStore.constructor` | internal/repository/redis/redis.go:32-37 | The repository keeps no state of its own: it sees whatever queue members and task records the Redis server already holds. |
| `Store.JobStore.AddJob` | internal/repository/redis/redis.go:39-64 | If ZADD fails: AddFailed, and nothing changes. If HSET fails: the job is queued with no record written, and the error is returned. Otherwise: the job is queued and `task:<id>` reads pending. |
| `Store.JobStore.GetJob` | internal/repository/redis/redis.go:66-103 | If ZPOPMIN fails: PopFailed, and nothing changes. An empty queue gives NotFound and changes nothing. Otherwise a lowest-score job leaves the queue. If the in_progress write then fails, an error is returned although the job is gone. If it succeeds, the popped job is returned and its record reads in_progress. |
| `Store.JobStore.CompleteJob` | internal/repository/redis/redis.go:105-110 | Sets that id's status to completed (creating the record if needed), or returns the HSET error and changes nothing. |
| `Store.JobStore.FailJob` | internal/repository/redis/redis.go:112-117 | Sets that id's status to failed (creating the record if needed), or returns the HSET error and changes nothing. |
| `Store.JobStore.GetJobStatus` | internal/repository/redis/redis.go:119-135 | Errors exactly when HGETALL fails. Otherwise returns the recorded status of `task:<id>`, or None when that id has no record. |
| `Service.NewJob` | internal/service/job.go:38-44 | The job handed to the store has the generated id, the given name and score, and the store's pending status string. |
| `Service.CreateJob` | internal/service/job.go:31-47 | If ID generation fails: returns "" and that error, and leaves the store alone. Otherwise returns the generated id together with whatever AddJob returned, after AddJob of the pending job with the given name and score. |
| `Service.GetJob` | internal/service/job.go:49-57 | Passes the store's claim on unchanged: the same job, or the same error, with the same effect on the store. |
| `Service.GetJobStatus` | internal/service/job.go:59-67 | Errors exactly when the store errors. Otherwise returns the store's status answer unchanged. |
| `Service.CreateThenClaim` | internal/service/job.go:31-57 | Take a job created with a score below everything queued. The next claim returns it with the generated id, the given name and score, and status "pending" in the job value. Its record then reads in_progress. |
| `Workerpool.Retry` | workerpool/workerpool.go:127-159 | Given n attempts whose outcomes in turn are `outcomes`, retry.Do stops at the first success, or after n failures. It makes at most n attempts, and at least one when n > 0. Every attempt before the last failed. The last one succeeded exactly when the run succeeded. |
| `Workerpool.RetryStopsAt` | workerpool/workerpool.go:152 | The run is fixed by where it stops. If k attempts failed except possibly the last, and the last either succeeded or was the n-th, then the run made k attempts and succeeded exactly when the k-th outcome was a success. |
| `Workerpool.TaskBalance` | workerpool/workerpool.go:124-178 | In every phase, a goroutine's slots equal its hints plus the slot it still holds. A settled goroutine made at most MaxRetries attempts and took one slot for each. |
| `Workerpool.SettledRun` | workerpool/workerpool.go:124-178 | A settled goroutine made exactly the attempts `Retry` predicts and took one slot per attempt. It wrote one hint per failed attempt, plus one when its completion was recorded. It called CompleteJob exactly when the run succeeded, and FailJob otherwise. |
| `Workerpool.SettleKeepsInv` | workerpool/workerpool.go:160-178 | Settling keeps the goroutine's invariant. The one hint written on a recorded completion is exactly the slot the goroutine stops holding. A failed CompleteJob, or any FailJob, writes none. |
| `Workerpool.HeldWhenSettled` | workerpool/workerpool.go:161-169 | Once every goroutine has ended, the slots still held are exactly those of the goroutines whose CompleteJob failed. |
| `Workerpool.UnmatchedIsHeld` | workerpool/workerpool.go:124-178 | Across all goroutines, the slots they sent minus the hints they sent equals the slots they still hold. |
| `Workerpool.SettledUnmatched` | workerpool/workerpool.go:160-178 | Once every goroutine has ended, the slots they sent exceed the hints they sent by exactly the number whose CompleteJob failed. |
| `Workerpool.LeakedLeHeld` | workerpool/workerpool.go:161-166 | Every goroutine whose CompleteJob failed still holds its slot. |
| `Workerpool.WorkerPool.LeaksFillSemaphore` | workerpool/workerpool.go:161-169 | With JobLimit goroutines whose CompleteJob failed, the semaphore is full and no hint is pending. So a tick takes nothing back, and both slot sends are blocked. |
| `Workerpool.WorkerPool.constructor` | workerpool/workerpool.go:36-49 | A new pool has empty channels, is not paused, is not done, and has no worker loops and no goroutines. |
| `Workerpool.WorkerPool.Pause` | workerpool/workerpool.go:51-56 | The flag is set to true whatever it was, so a second Pause changes nothing. The pause flag is the only thing it changes. |
| `Workerpool.WorkerPool.Unpause` | workerpool/workerpool.go:58-64 | The flag is set to false whatever it was, so a second Unpause changes nothing. The pause flag is the only thing it changes. |
| `Workerpool.WorkerPool.Wait` | workerpool/workerpool.go:99-105 | Passes exactly when the flag is clear on entry or at some wake-up. It passes at the first look that finds the flag clear, so every earlier look found it set. If it does not pass, it is still waiting after every wake-up. It passes only with the flag clear. |
| `Workerpool.WorkerPool.Start` | workerpool/workerpool.go:89-97 | Starts the ticker and appends cfg.Workers worker loops, each at the top of its loop. |
| `Workerpool.WorkerPool.Stop` | workerpool/workerpool.go:184-185 | Raises the done signal. |
| `Workerpool.WorkerPool.Poll` | workerpool/workerpool.go:110-116 | Once done is raised, the worker exits and nothing else changes. Otherwise it enters wait. It goes on to claim exactly when the flag is clear on entry or at some wake-up. If not, it stays blocked inside wait. |
| `Workerpool.WorkerPool.Resume` | workerpool/workerpool.go:101-103 | A worker blocked in wait goes on to claim exactly when the flag is clear now or at some later wake-up. Otherwise it stays waiting. It never looks at done, so it cannot exit while the flag stays set. |
| `Workerpool.WorkerPool.Claim` | workerpool/workerpool.go:117-120 | Calls the store's GetJob. A claimed job makes the worker block on its first slot. An error sends the worker back to the top of its loop. |
| `Workerpool.WorkerPool.Admit` | workerpool/workerpool.go:121-125 | Only possible while the semaphore has room. Takes one slot and spawns a goroutine for the job, at its first attempt's pause check, with no retries counted. The worker returns to the top of its loop and the invariant is kept. |
| `Workerpool.WorkerPool.Gate` | workerpool/workerpool.go:134-135 | After its slot is taken, the attempt waits at the pause gate. The executor starts only once the gate passes. |
| `Workerpool.WorkerPool.Attempt` | workerpool/workerpool.go:136-158 | A success ends retry.Do with nil. A failure or timeout runs OnRetry: retriesCount goes up by one and exactly one hint is written, and doneJob always has room for it. After that, the next attempt begins, unless MaxRetries attempts have been made, in which case retry.Do returns the error. |
| `Workerpool.WorkerPool.AcquireRetry` | workerpool/workerpool.go:129-133 | A retry takes one slot of its own, and only while the semaphore has room. The invariant is kept. |
| `Workerpool.WorkerPool.Settle` | workerpool/workerpool.go:160-178 | After success, CompleteJob is called. Exactly one hint follows, and only if CompleteJob succeeds. After the attempts run out, FailJob is called and no hint is written. Exactly one of the two calls is made. |
| `Workerpool.WorkerPool.Tick` | workerpool/workerpool.go:71-81 | Takes back exactly as many (slot, hint) pairs as there were hints at the start. No hints are left afterwards. The slots still reserved are exactly those the goroutines hold, and the semaphore never runs short. |
| `Runs.RunAttempts` | workerpool/workerpool.go:126-159 | Attempting a lone job with the given outcomes always ends with retry.Do returned, the job unchanged, and the outcomes seen a prefix of those given. |
| `Runs.StopWhilePaused` | workerpool/workerpool.go:184-188 | Start, Pause, a poll, then Stop. However often the worker is woken while the flag stays set, it remains blocked in wait, and done and the pause flag are both raised. |
| `Runs.RunSingleJob` | workerpool/workerpool.go:107-178 | For one job on a fresh pool: the slots taken equal `Retry`'s attempts. The hints written are the failed attempts, plus one for a recorded completion. After one more tick, the slots still reserved number one exactly when the job succeeded but CompleteJob failed. The recorded status is completed or failed, or in_progress when the settlement write failed. |

## Left out

- `PerformJob` (workerpool/workerpool.go:191-205) draws random failures and sleeps. Each attempt's `Outcome` is a parameter in its place.
- Real time is left out: the ticker period, the per-attempt deadline's length, the 1 ms retry delay, and the created_at, started_at and finished_at timestamps. A tick is a step that may come at any time after Start. A deadline is the `Timeout` outcome.
- A timed-out executor keeps running in its abandoned goroutine. It only sends into its own buffered channel, so it has no effect on the pool's state.
- Goroutine scheduling, `sync.Cond` and the WaitGroup are left out. Interleaving is modelled as steps taken in any order. Each step is atomic.
- Stop's closing of `semaphore` and `doneJob`, and its `wg.Wait()`, are left out. Stop only raises `done`, and the ticker's own exit on `done` is not modelled. Closing a channel while goroutines may still write to it is a concurrency hazard outside this model.
- The global atomic `count` is left out. It only feeds log lines.
- `ctx`, logging and error wrapping are left out. Each wrapped error message is one `Error` constructor.
- Redis and JSON are left out, for the following reasons:
  - The member's marshal, cast and unmarshal failures cannot happen here: every queue member is a job value and every score is a finite `real`.
  - float64 NaN and infinite scores are not modelled.
  - Redis breaks ties between equal scores by member bytes. The model lets the claim pick any lowest-score job.
  - A record's score and timestamp fields are left out.
- `Store.JobStore.GetJobStatus`: returns the record's status field (None for a missing record) instead of the JSON text of the whole hash.
- `Service.GetJobStatus`: passes on that status value instead of the JSON text, for the same reason.
- The `JobRepository` interface is replaced by the concrete `JobStore` class, because the model has no interfaces.
- `retry-go` is not part of this model. The semantics it is assumed to have are stated above.
- Workerpool.WorkerPool.constructor: requires `1 <= maxRetries`, so a non-positive `MaxRetries` (a uint conversion and then `Attempts(0)`) is not modelled, because what retry-go does with it is outside this model. `JobLimit` is a `nat`, because a negative capacity makes `make` panic.
- Pause's and Unpause's idempotence is stated by their postconditions alone. The model does not prove that sequences of both commute.
- config/config.go and config/context.go (configuration loading) are not part of this model.
- pkg/generator/generator.go (random IDs) is not part of this model, and is represented by the `generated` parameter of `CreateJob`.
- internal/errors/errors.go (message strings) is not part of this model.
- internal/delivery/http (HTTP handlers) is not part of this model.
- internal/app (wiring, router, server) is not part of this model.
- cmd/app/main.go (program entry point) is not part of this model.
