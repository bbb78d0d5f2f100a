/** The worker pool (workerpool/workerpool.go) as an interleaving of small
    steps. The buffered channels `semaphore` and `doneJob` are the counters
    `slots` and `hints`; a send that would block on a full channel is a
    step whose precondition is that the channel has room. Each worker loop
    and each job goroutine has a phase, and every step moves one of them.
    The executor-versus-deadline race of an attempt is the Outcome the step
    is given, and a wake-up in `wait` is the pause flag as other goroutines
    left it. */
module Workerpool {
  import opened Results
  import opened Store

  /** How one attempt ends: the executor's own result, or the per-attempt
      deadline elapsing first. */
  datatype Outcome = Success | Failure | Timeout

  /** Where a job goroutine (workerpool.go:125-179) stands. */
  datatype Phase =
    | Gated                      // holds the attempt's slot and is at wp.wait()
    | Running                    // the executor races the per-attempt deadline
    | AwaitingSlot               // a retry has begun and blocks sending to the semaphore
    | Returned(succeeded: bool)  // retry.Do has returned, nil or an error
    | Settled(call: Settlement)  // the settlement call has been made; the goroutine ended

  /** The settlement call a goroutine made and how it went. */
  datatype Settlement = CompleteRecorded | CompleteErrored | FailRecorded | FailErrored

  /** One job goroutine: its claimed job, its retriesCount, its phase, the
      outcomes of the attempts it has run, and how many slots and hints it
      has put into the two channels. */
  datatype Task = Task(job: Job, retries: nat, phase: Phase, history: seq<Outcome>,
                       acquired: nat, hinted: nat)

  /** Where a worker loop (workerpool.go:107-182) stands. */
  datatype WorkerPhase =
    | Polling              // at the top of the loop
    | Waiting              // inside wp.wait(), blocked in cond.Wait until a broadcast
    | Claiming             // past wp.wait(), about to call GetJob
    | Admitting(job: Job)  // holds a claimed job and blocks on the first slot
    | Exited               // saw the done channel closed and returned

  // ---------------------------------------------------------------------
  // retry.Do, as a reference definition

  /** The run retry.Do makes: how many attempts, and whether the last one
      succeeded. */
  datatype RetryRun = RetryRun(attempts: nat, succeeded: bool)

  /** At most n attempts whose outcomes in turn are `outcomes`: the run stops
      at the first success, or after n failures. */
  function Retry(outcomes: seq<Outcome>, n: nat): (r: RetryRun)
    requires n <= |outcomes|
    ensures r.attempts <= n
    ensures n > 0 ==> r.attempts > 0
    ensures forall k :: 0 <= k < r.attempts - 1 ==> outcomes[k] != Success
    ensures r.succeeded <==> r.attempts > 0 && outcomes[r.attempts - 1] == Success
    ensures !r.succeeded ==> r.attempts == n
    decreases n
  {
    if n == 0 then RetryRun(0, false)
    else if outcomes[0] == Success then RetryRun(1, true)
    else
      var rest := Retry(outcomes[1..], n - 1);
      RetryRun(rest.attempts + 1, rest.succeeded)
  }

  /** A run is fixed by where it stops: k attempts, all failures but the
      last, which is a success or the n-th attempt. */
  lemma RetryStopsAt(outcomes: seq<Outcome>, n: nat, k: nat)
    requires n <= |outcomes| && 0 < k <= n
    requires forall j :: 0 <= j < k - 1 ==> outcomes[j] != Success
    requires outcomes[k - 1] == Success || k == n
    ensures Retry(outcomes, n) == RetryRun(k, outcomes[k - 1] == Success)
  {
  }

  // ---------------------------------------------------------------------
  // One job goroutine

  /** The phase in which the retry closure starts an attempt: only a retry
      (retriesCount != 0) sends a slot of its own (workerpool.go:131-133);
      the first attempt's slot was sent by the worker. */
  function EntryPhase(retries: nat): Phase {
    if retries != 0 then AwaitingSlot else Gated
  }

  /** The goroutine a worker spawns after sending the first slot for it. */
  function Spawned(job: Job): Task {
    Task(job, 0, EntryPhase(0), [], 1, 0)
  }

  /** The goroutine after its running attempt ends with outcome o, with at
      most n attempts: a success makes retry.Do return nil; a failure runs
      OnRetry (retriesCount++ and one hint) and then starts the next attempt
      or, with n attempts made, makes retry.Do return the error. */
  function AfterAttempt(t: Task, o: Outcome, n: nat): Task {
    var h := t.history + [o];
    if o == Success then
      t.(history := h, phase := Returned(true))
    else if |h| < n then
      t.(history := h, retries := t.retries + 1, hinted := t.hinted + 1, phase := EntryPhase(t.retries + 1))
    else
      t.(history := h, retries := t.retries + 1, hinted := t.hinted + 1, phase := Returned(false))
  }

  /** The goroutine after its settlement call; `recorded` is whether the
      status write went through. Only a recorded completion sends a hint. */
  function AfterSettle(t: Task, recorded: bool): Task
    requires t.phase.Returned?
  {
    if t.phase.succeeded then
      if recorded then t.(phase := Settled(CompleteRecorded), hinted := t.hinted + 1)
      else t.(phase := Settled(CompleteErrored))
    else
      t.(phase := Settled(if recorded then FailRecorded else FailErrored))
  }

  predicate NoSuccess(h: seq<Outcome>) {
    forall k :: 0 <= k < |h| ==> h[k] != Success
  }

  /** What holds of a goroutine with at most n attempts, in each phase. */
  ghost predicate TaskInv(t: Task, n: nat) {
    var h := t.history;
    match t.phase
    case Gated | Running =>
      |h| < n && NoSuccess(h) && t.retries == |h| && t.hinted == |h| && t.acquired == |h| + 1
    case AwaitingSlot =>
      0 < |h| < n && NoSuccess(h) && t.retries == |h| && t.hinted == |h| && t.acquired == |h|
    case Returned(succeeded) =>
      RetryEnded(t, n, succeeded) && t.hinted == t.retries
    case Settled(call) =>
      RetryEnded(t, n, call == CompleteRecorded || call == CompleteErrored) &&
      t.hinted == t.retries + (if call == CompleteRecorded then 1 else 0)
  }

  /** retry.Do has returned after |history| attempts, each with its own slot. */
  ghost predicate RetryEnded(t: Task, n: nat, succeeded: bool) {
    var h := t.history;
    0 < |h| <= n && t.acquired == |h| && NoSuccess(h[..|h| - 1]) &&
    (succeeded ==> h[|h| - 1] == Success && t.retries == |h| - 1) &&
    (!succeeded ==> h[|h| - 1] != Success && |h| == n && t.retries == n)
  }

  /** 1 when the goroutine has a slot in the semaphore that no hint of its
      own matches. */
  function Holding(t: Task): nat {
    match t.phase
    case Gated | Running => 1
    case AwaitingSlot => 0
    case Returned(succeeded) => if succeeded then 1 else 0
    case Settled(call) => if call == CompleteErrored then 1 else 0
  }

  /** The slots and hints of a goroutine differ by exactly its Holding. */
  lemma TaskBalance(t: Task, n: nat)
    requires TaskInv(t, n)
    ensures t.acquired == t.hinted + Holding(t)
    ensures t.phase.Settled? ==> t.acquired == |t.history| <= n
  {
  }

  /** The counter equations of a settled goroutine: one slot per attempt,
      one hint per failed attempt, one more for a recorded completion, and
      the run is the one retry.Do makes on any continuation of the outcomes
      it saw. */
  lemma SettledRun(t: Task, n: nat, outcomes: seq<Outcome>)
    requires TaskInv(t, n) && t.phase.Settled?
    requires n <= |outcomes| && t.history <= outcomes
    ensures var run := Retry(outcomes, n);
      && t.acquired == run.attempts
      && (run.succeeded <==> t.phase.call in {CompleteRecorded, CompleteErrored})
      && t.hinted == run.attempts - (if run.succeeded then 1 else 0)
                     + (if t.phase.call == CompleteRecorded then 1 else 0)
  {
    var h := t.history;
    assert forall j :: 0 <= j < |h| - 1 ==> outcomes[j] == h[..|h| - 1][j];
    RetryStopsAt(outcomes, n, |h|);
  }

  /** Settling keeps the goroutine's invariant, and the hint it sends (on a
      recorded completion) is exactly the slot it stops holding. */
  lemma SettleKeepsInv(t: Task, n: nat, recorded: bool)
    requires TaskInv(t, n) && t.phase.Returned?
    ensures TaskInv(AfterSettle(t, recorded), n)
    ensures Holding(AfterSettle(t, recorded)) + (if t.phase.succeeded && recorded then 1 else 0) == Holding(t)
  {
  }

  // ---------------------------------------------------------------------
  // Counting over all goroutines

  /** The slots held by the goroutines, unmatched by their hints. */
  function Held(ts: seq<Task>): nat {
    if ts == [] then 0 else Held(ts[..|ts| - 1]) + Holding(ts[|ts| - 1])
  }

  /** The goroutines whose CompleteJob failed: they return before their last
      hint, so their last slot is never matched. */
  function Leaked(ts: seq<Task>): nat {
    if ts == [] then 0
    else Leaked(ts[..|ts| - 1]) + (if ts[|ts| - 1].phase == Settled(CompleteErrored) then 1 else 0)
  }

  lemma HeldAppend(ts: seq<Task>, t: Task)
    ensures Held(ts + [t]) == Held(ts) + Holding(t)
  {
    assert (ts + [t])[..|ts|] == ts;
  }

  lemma {:induction false} HeldUpdate(ts: seq<Task>, i: nat, t: Task)
    requires i < |ts|
    ensures Held(ts[i := t]) + Holding(ts[i]) == Held(ts) + Holding(t)
    decreases |ts|
  {
    var last := |ts| - 1;
    if i == last {
      assert ts[i := t][..last] == ts[..last];
    } else {
      HeldUpdate(ts[..last], i, t);
      assert ts[i := t][..last] == ts[..last][i := t];
    }
  }

  lemma {:induction false} HeldElem(ts: seq<Task>, i: nat)
    requires i < |ts|
    ensures Holding(ts[i]) <= Held(ts)
    decreases |ts|
  {
    if i < |ts| - 1 {
      HeldElem(ts[..|ts| - 1], i);
    }
  }

  /** Once every goroutine has ended, the only slots still held are the
      leaked ones. */
  lemma {:induction false} HeldWhenSettled(ts: seq<Task>)
    requires forall i :: 0 <= i < |ts| ==> ts[i].phase.Settled?
    ensures Held(ts) == Leaked(ts)
    decreases |ts|
  {
    if ts != [] {
      HeldWhenSettled(ts[..|ts| - 1]);
    }
  }

  /** Every slot the goroutines sent less every hint they sent. */
  function Unmatched(ts: seq<Task>): int {
    if ts == [] then 0
    else Unmatched(ts[..|ts| - 1]) + (ts[|ts| - 1].acquired - ts[|ts| - 1].hinted)
  }

  /** The goroutines' own counters account for the slots they hold. */
  lemma {:induction false} UnmatchedIsHeld(ts: seq<Task>, n: nat)
    requires forall i :: 0 <= i < |ts| ==> TaskInv(ts[i], n)
    ensures Unmatched(ts) == Held(ts)
    decreases |ts|
  {
    if ts != [] {
      var init := ts[..|ts| - 1];
      assert forall i :: 0 <= i < |init| ==> init[i] == ts[i];
      UnmatchedIsHeld(init, n);
      TaskBalance(ts[|ts| - 1], n);
    }
  }

  /** Once every goroutine has ended, the slots they sent exceed the hints
      they sent by exactly the number whose CompleteJob failed. */
  lemma SettledUnmatched(ts: seq<Task>, n: nat)
    requires forall i :: 0 <= i < |ts| ==> TaskInv(ts[i], n) && ts[i].phase.Settled?
    ensures Unmatched(ts) == Leaked(ts)
  {
    UnmatchedIsHeld(ts, n);
    HeldWhenSettled(ts);
  }

  /** A goroutine whose CompleteJob failed always holds its slot. */
  lemma {:induction false} LeakedLeHeld(ts: seq<Task>)
    ensures Leaked(ts) <= Held(ts)
    decreases |ts|
  {
    if ts != [] {
      LeakedLeHeld(ts[..|ts| - 1]);
    }
  }

  // ---------------------------------------------------------------------
  // The pool

  class WorkerPool {
    /** cfg.JobLimit: the capacity of both `semaphore` and `doneJob`. */
    const jobLimit: nat
    /** cfg.MaxRetries: the number of attempts retry.Do may make. */
    const maxRetries: nat
    /** cfg.Workers: the number of worker loops Start spawns. */
    const workerCount: nat
    const repo: JobStore
    /** len(semaphore): slots sent and not yet taken back by a tick. */
    var slots: nat
    /** len(doneJob): hints sent and not yet drained by a tick. */
    var hints: nat
    var paused: bool
    /** The done channel has been closed. */
    var done: bool
    /** StartTicker is running. */
    var ticking: bool
    var workers: seq<WorkerPhase>
    /** One entry per job goroutine spawned. */
    var tasks: seq<Task>

    /** Every slot is matched by a pending hint or held by a goroutine, and
        the semaphore never holds more than jobLimit slots. */
    ghost predicate Valid()
      reads this`slots, this`hints, this`tasks
    {
      1 <= maxRetries && slots <= jobLimit && slots == hints + Held(tasks) &&
      forall i :: 0 <= i < |tasks| ==> TaskInv(tasks[i], maxRetries)
    }

    /** NewWorkerPool (workerpool.go:36-49). */
    constructor (jobLimit: nat, maxRetries: nat, workerCount: nat, repo: JobStore)
      requires 1 <= maxRetries
      ensures Valid()
      ensures this.jobLimit == jobLimit && this.maxRetries == maxRetries
      ensures this.workerCount == workerCount && this.repo == repo
      ensures slots == 0 && hints == 0 && !paused && !done && !ticking
      ensures workers == [] && tasks == []
    {
      this.jobLimit := jobLimit;
      this.maxRetries := maxRetries;
      this.workerCount := workerCount;
      this.repo := repo;
      slots, hints := 0, 0;
      paused, done, ticking := false, false, false;
      workers, tasks := [], [];
    }

    /** Pause (workerpool.go:51-56). */
    method Pause()
      modifies this`paused
      ensures paused
    {
      paused := true;
    }

    /** Unpause (workerpool.go:58-64); the broadcast is what lets a waiter
        in Wait see the new value. */
    method Unpause()
      modifies this`paused
      ensures !paused
    {
      paused := false;
    }

    /** wait (workerpool.go:99-105): while the flag is set, block until the
        next broadcast and look again. wakes[k] is the flag as other
        goroutines left it at the k-th wake-up. The waiter passes at the
        first look that finds the flag clear, and is still waiting when
        every look found it set. */
    method Wait(wakes: seq<bool>) returns (passed: bool, woken: nat)
      modifies this`paused
      ensures passed == !paused
      ensures woken <= |wakes|
      ensures woken == 0 ==> paused == old(paused)
      ensures woken > 0 ==> old(paused) && paused == wakes[woken - 1]
      ensures forall k :: 0 <= k < woken - 1 ==> wakes[k]
      ensures !passed ==> woken == |wakes|
      ensures passed <==> !old(paused) || exists k :: 0 <= k < |wakes| && !wakes[k]
    {
      woken := 0;
      while paused && woken < |wakes|
        invariant woken <= |wakes|
        invariant woken == 0 ==> paused == old(paused)
        invariant woken > 0 ==> old(paused) && paused == wakes[woken - 1]
        invariant forall k :: 0 <= k < woken - 1 ==> wakes[k]
      {
        paused := wakes[woken];
        woken := woken + 1;
      }
      passed := !paused;
    }

    /** Start (workerpool.go:89-97): the ticker and cfg.Workers worker loops. */
    method Start()
      modifies this`workers, this`ticking
      ensures ticking
      ensures workers == old(workers) + seq(workerCount, _ => Polling)
    {
      ticking := true;
      workers := workers + seq(workerCount, _ => Polling);
    }

    /** Stop's close(wp.done) (workerpool.go:185): the signal the worker
        loops exit on. */
    method Stop()
      modifies this`done
      ensures done
    {
      done := true;
    }

    /** The top of a worker loop (workerpool.go:110-116): return once done
        is closed; otherwise enter wait, and stay blocked in it while the
        flag stays set. */
    method Poll(w: nat, wakes: seq<bool>) returns (claiming: bool)
      requires w < |workers| && workers[w] == Polling
      modifies this`paused, this`workers
      ensures old(done) ==> !claiming && paused == old(paused) && workers == old(workers)[w := Exited]
      ensures !old(done) ==> workers == old(workers)[w := if claiming then Claiming else Waiting]
      ensures !old(done) ==> claiming == !paused
      ensures !old(done) ==> (claiming <==> !old(paused) || exists k :: 0 <= k < |wakes| && !wakes[k])
    {
      if done {
        workers := workers[w := Exited];
        return false;
      }
      var woken;
      claiming, woken := Wait(wakes);
      workers := workers[w := if claiming then Claiming else Waiting];
    }

    /** More wake-ups of a worker blocked in wait (workerpool.go:101-103).
        Only Unpause's broadcast ends the wait, and the done channel is not
        looked at, so a worker waiting while the flag stays set never
        exits, even after Stop. */
    method Resume(w: nat, wakes: seq<bool>) returns (claiming: bool)
      requires w < |workers| && workers[w] == Waiting
      modifies this`paused, this`workers
      ensures claiming == !paused
      ensures claiming <==> !old(paused) || exists k :: 0 <= k < |wakes| && !wakes[k]
      ensures workers == old(workers)[w := if claiming then Claiming else Waiting]
    {
      var woken;
      claiming, woken := Wait(wakes);
      workers := workers[w := if claiming then Claiming else Waiting];
    }

    /** The claim (workerpool.go:117-120): GetJob; on an error the loop
        starts over. */
    method Claim(w: nat, zpopFails: bool, hsetFails: bool) returns (r: Result<Job>)
      requires w < |workers| && workers[w] == Claiming
      modifies this`workers, repo
      ensures Claimed(old(repo.State()), zpopFails, hsetFails, repo.State(), r)
      ensures workers == old(workers)[w := if r.Ok? then Admitting(r.value) else Polling]
    {
      r := repo.GetJob(zpopFails, hsetFails);
      workers := workers[w := if r.Ok? then Admitting(r.value) else Polling];
    }

    /** The first slot and the spawn (workerpool.go:124-125): the worker
        sends one slot, which needs room in the semaphore, and starts the
        job's goroutine. */
    method Admit(w: nat)
      requires Valid() && w < |workers| && workers[w].Admitting?
      requires slots < jobLimit
      modifies this`slots, this`workers, this`tasks
      ensures Valid()
      ensures slots == old(slots) + 1 && hints == old(hints)
      ensures tasks == old(tasks) + [Spawned(old(workers[w]).job)]
      ensures workers == old(workers)[w := Polling]
    {
      var t := Spawned(workers[w].job);
      HeldAppend(tasks, t);
      slots := slots + 1;
      tasks := tasks + [t];
      workers := workers[w := Polling];
    }

    /** The pause check inside an attempt (workerpool.go:134-135), after the
        attempt's slot has been sent. */
    method Gate(i: nat, wakes: seq<bool>) returns (running: bool)
      requires Valid() && i < |tasks| && tasks[i].phase == Gated
      modifies this`paused, this`tasks
      ensures Valid()
      ensures running == !paused
      ensures running <==> !old(paused) || exists k :: 0 <= k < |wakes| && !wakes[k]
      ensures tasks == old(tasks)[i := if running then old(tasks[i]).(phase := Running) else old(tasks[i])]
    {
      var woken;
      running, woken := Wait(wakes);
      if running {
        var t := tasks[i].(phase := Running);
        HeldUpdate(tasks, i, t);
        tasks := tasks[i := t];
      }
    }

    /** An attempt ends (workerpool.go:136-158): retry.Do sees outcome o;
        on a failure OnRetry increments retriesCount and sends one hint,
        and doneJob always has room for it. */
    method Attempt(i: nat, o: Outcome)
      requires Valid() && i < |tasks| && tasks[i].phase == Running
      modifies this`hints, this`tasks
      ensures Valid()
      ensures hints == old(hints) + (if o == Success then 0 else 1)
      ensures tasks == old(tasks)[i := AfterAttempt(old(tasks[i]), o, maxRetries)]
    {
      var t := AfterAttempt(tasks[i], o, maxRetries);
      if o != Success {
        HeldElem(tasks, i);
        assert hints < jobLimit;
        hints := hints + 1;
      }
      HeldUpdate(tasks, i, t);
      tasks := tasks[i := t];
    }

    /** A retry's own slot (workerpool.go:131-133), which needs room in the
        semaphore. */
    method AcquireRetry(i: nat)
      requires Valid() && i < |tasks| && tasks[i].phase == AwaitingSlot
      requires slots < jobLimit
      modifies this`slots, this`tasks
      ensures Valid()
      ensures slots == old(slots) + 1 && hints == old(hints)
      ensures tasks == old(tasks)[i := old(tasks[i]).(phase := Gated, acquired := old(tasks[i]).acquired + 1)]
    {
      var t := tasks[i].(phase := Gated, acquired := tasks[i].acquired + 1);
      HeldUpdate(tasks, i, t);
      slots := slots + 1;
      tasks := tasks[i := t];
    }

    /** Settlement (workerpool.go:160-178): after success CompleteJob, and
        one hint only when it succeeds; after the attempts ran out FailJob
        and no hint. `writeFails` is whether that HSET fails. */
    method Settle(i: nat, writeFails: bool) returns (err: Option<Error>)
      requires Valid() && i < |tasks| && tasks[i].phase.Returned?
      modifies this`hints, this`tasks, repo
      ensures Valid()
      ensures Marked(old(repo.State()), old(tasks[i]).job.id,
                     if old(tasks[i]).phase.succeeded then Completed else Failed,
                     writeFails, repo.State(), err)
      ensures hints == old(hints) + (if old(tasks[i]).phase.succeeded && err.None? then 1 else 0)
      ensures tasks == old(tasks)[i := AfterSettle(old(tasks[i]), err.None?)]
    {
      var t := tasks[i];
      if t.phase.succeeded {
        err := repo.CompleteJob(t.job.id, writeFails);
        if err.None? {
          HeldElem(tasks, i);
          assert hints < jobLimit;
          hints := hints + 1;
        }
      } else {
        err := repo.FailJob(t.job.id, writeFails);
      }
      var t' := AfterSettle(t, err.None?);
      SettleKeepsInv(t, maxRetries, err.None?);
      HeldUpdate(tasks, i, t');
      tasks := tasks[i := t'];
    }

    /** With JobLimit goroutines whose CompleteJob failed, the semaphore is
        full and no hint is pending, so a tick takes nothing back and every
        slot send blocks; no step changes a settled goroutine, so this
        lasts. */
    lemma LeaksFillSemaphore()
      requires Valid() && Leaked(tasks) == jobLimit
      ensures slots == jobLimit && hints == 0
    {
      LeakedLeHeld(tasks);
    }

    /** One window tick (workerpool.go:71-81): drain as many (slot, hint)
        pairs as there are hints at the start. The semaphore always has a
        slot for each pair, and what stays reserved is exactly what the
        goroutines hold. */
    method Tick() returns (drained: nat)
      requires Valid() && ticking
      modifies this`slots, this`hints
      ensures Valid()
      ensures drained == old(hints)
      ensures hints == 0 && slots == old(slots) - old(hints)
      ensures slots == Held(tasks)
    {
      var length := hints;
      drained := length;
      while length > 0
        invariant length <= drained
        invariant hints == length
        invariant slots == old(slots) - (drained - length)
        invariant Valid()
      {
        slots := slots - 1;
        hints := hints - 1;
        length := length - 1;
      }
    }
  }
}
