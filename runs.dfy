/** A client of the pool: one job driven through every step, from AddJob to
    the tick after its settlement, on a pool with one worker and no pause.
    Its contract ties the counters the steps leave behind to the reference
    run of retry.Do. */
module Runs {
  import opened Results
  import opened Store
  import opened Workerpool

  /** An empty Redis given the job, a started pool with one worker over it,
      and that worker's first iteration: poll, claim, first slot, spawn. */
  method Launch(job: Job, jobLimit: nat, maxRetries: nat) returns (pool: WorkerPool)
    requires 1 <= jobLimit && 1 <= maxRetries
    ensures fresh(pool) && fresh(pool.repo)
    ensures pool.Valid() && pool.ticking && !pool.paused
    ensures pool.jobLimit == jobLimit && pool.maxRetries == maxRetries
    ensures pool.tasks == [Spawned(job)]
    ensures pool.repo.State() == StoreState({}, map[Key(job.id) := InProgress])
  {
    var store := new JobStore({}, map[]);
    var added := store.AddJob(job, false, false);
    pool := new WorkerPool(jobLimit, maxRetries, 1, store);
    pool.Start();
    var claiming := pool.Poll(0, []);
    var claimed := pool.Claim(0, false, false);
    assert IsLowest(job, {job});
    pool.Admit(0);
  }

  /** The job's attempts, one outcome each, until retry.Do returns. */
  method RunAttempts(pool: WorkerPool, outcomes: seq<Outcome>)
    requires pool.Valid() && pool.ticking && !pool.paused
    requires |pool.tasks| == 1 && pool.tasks[0].phase == Gated && pool.tasks[0].history == []
    requires pool.maxRetries <= |outcomes|
    modifies pool
    ensures pool.Valid() && pool.ticking
    ensures |pool.tasks| == 1 && pool.tasks[0].phase.Returned?
    ensures pool.tasks[0].job == old(pool.tasks[0].job)
    ensures pool.tasks[0].history <= outcomes
  {
    var k := 0;
    while !pool.tasks[0].phase.Returned?
      invariant pool.Valid() && |pool.tasks| == 1
      invariant pool.ticking && !pool.paused
      invariant pool.tasks[0].job == old(pool.tasks[0].job) && k <= pool.maxRetries
      invariant pool.tasks[0].history == outcomes[..k]
      invariant !pool.tasks[0].phase.Returned? ==> pool.tasks[0].phase == Gated
      decreases pool.maxRetries - k
    {
      var running := pool.Gate(0, []);
      pool.Attempt(0, outcomes[k]);
      assert outcomes[..k + 1] == outcomes[..k] + [outcomes[k]];
      k := k + 1;
      if pool.tasks[0].phase == AwaitingSlot {
        if pool.slots == pool.jobLimit {
          assert pool.tasks == [pool.tasks[0]];
          var drained := pool.Tick();
        }
        pool.AcquireRetry(0);
      }
    }
  }

  /** The job is added, claimed, admitted and attempted with the given
      outcomes until retry.Do returns; a retry that finds the semaphore full
      waits for the next tick. `completeFails` and `failFails` are whether
      the settlement's status write fails. Returned: the slots and hints the
      job's goroutine sent, the status then recorded for it, and the slots
      still reserved after one more tick. */
  method RunSingleJob(job: Job, outcomes: seq<Outcome>, jobLimit: nat, maxRetries: nat,
                      completeFails: bool, failFails: bool)
    returns (acquired: nat, written: nat, status: Option<Status>, unreclaimed: nat)
    requires 1 <= jobLimit && 1 <= maxRetries <= |outcomes|
    ensures var run := Retry(outcomes, maxRetries);
      && acquired == run.attempts
      && written == run.attempts - (if run.succeeded then 1 else 0)
                    + (if run.succeeded && !completeFails then 1 else 0)
      && unreclaimed == acquired - written
      && unreclaimed == (if run.succeeded && completeFails then 1 else 0)
      && status == Some(if run.succeeded then (if completeFails then InProgress else Completed)
                        else (if failFails then InProgress else Failed))
  {
    var pool := Launch(job, jobLimit, maxRetries);
    var store := pool.repo;
    RunAttempts(pool, outcomes);
    var succeeded := pool.tasks[0].phase.succeeded;
    var err := pool.Settle(0, if succeeded then completeFails else failFails);
    var drained := pool.Tick();
    var t := pool.tasks[0];
    SettledRun(t, maxRetries, outcomes);
    assert pool.tasks == [t];
    acquired, written, unreclaimed := t.acquired, t.hinted, pool.slots;
    var answer := store.GetJobStatus(job.id, false);
    status := answer.value;
  }

  /** Stop while paused: a worker that entered wait while the flag was set
      is still blocked there after Stop, however often it is woken while
      the flag stays set, because it never reaches the done check; Stop's
      wg.Wait() (workerpool.go:188) waits for that worker. */
  method StopWhilePaused(wakes: seq<bool>) returns (pool: WorkerPool)
    requires forall k :: 0 <= k < |wakes| ==> wakes[k]
    ensures fresh(pool) && pool.done && pool.paused
    ensures pool.workers == [Waiting]
  {
    var store := new JobStore({}, map[]);
    pool := new WorkerPool(1, 1, 1, store);
    pool.Start();
    pool.Pause();
    var claiming := pool.Poll(0, []);
    pool.Stop();
    claiming := pool.Resume(0, wakes);
  }
}
