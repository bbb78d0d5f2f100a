/** The Redis job store (internal/repository/redis/redis.go): a sorted set of
    marshalled jobs, scored by their own score, and one hash record per job,
    kept under the key "task:<id>". Only the record's status field is
    modelled. */
module Store {
  import opened Results

  /** A job as it is marshalled into the sorted set (models/job.go); the
      three timestamps are left out. */
  datatype Job = Job(id: string, name: string, score: real, status: string)

  /** The values of the status field of a job's record. */
  datatype Status = Pending | InProgress | Completed | Failed

  /** The status constants of redis.go:20-25. */
  function StatusName(s: Status): string {
    match s
    case Pending => "pending"
    case InProgress => "in_progress"
    case Completed => "completed"
    case Failed => "failed"
  }

  const KeyPrefix: string := "task:"

  /** The hash key of a job's record: fmt.Sprintf("task:%s", id). */
  function Key(id: string): string {
    KeyPrefix + id
  }

  lemma KeyInjective(a: string, b: string)
    ensures Key(a) == Key(b) <==> a == b
  {
    if Key(a) == Key(b) {
      assert a == Key(a)[|KeyPrefix|..];
      assert b == Key(b)[|KeyPrefix|..];
    }
  }

  /** The store's contents: the queue's members and the status records. */
  datatype StoreState = StoreState(queue: set<Job>, records: map<string, Status>)

  /** The status recorded for a job id; None when no record exists (HGETALL
      then answers an empty hash). */
  function Lookup(s: StoreState, id: string): Option<Status> {
    if Key(id) in s.records then Some(s.records[Key(id)]) else None
  }

  /** j is a member of q with the lowest score, the one ZPOPMIN removes. */
  predicate IsLowest(j: Job, q: set<Job>) {
    j in q && forall o :: o in q ==> j.score <= o.score
  }

  lemma {:induction false} LowestExists(q: set<Job>)
    requires q != {}
    ensures exists j :: IsLowest(j, q)
    decreases q
  {
    var x :| x in q;
    if q != {x} {
      var rest := q - {x};
      LowestExists(rest);
      var m :| IsLowest(m, rest);
      if x.score <= m.score {
        assert IsLowest(x, q);
      } else {
        assert IsLowest(m, q);
      }
    } else {
      assert IsLowest(x, q);
    }
  }

  /** AddJob (redis.go:39-64): ZADD the job, then HSET its record to pending.
      The first failing call decides the error; a failing HSET leaves the job
      queued without a record. */
  ghost predicate Added(s: StoreState, job: Job, zaddFails: bool, hsetFails: bool, s': StoreState, err: Option<Error>) {
    if zaddFails then
      err == Some(AddFailed) && s' == s
    else if hsetFails then
      err == Some(WriteFailed) && s' == s.(queue := s.queue + {job})
    else
      err == None && s' == StoreState(s.queue + {job}, s.records[Key(job.id) := Pending])
  }

  /** GetJob (redis.go:66-103): ZPOPMIN, then HSET the popped job's record to
      in_progress. An empty queue answers NotFound and changes nothing; a
      failing HSET returns an error although the job has left the queue. */
  ghost predicate Claimed(s: StoreState, zpopFails: bool, hsetFails: bool, s': StoreState, r: Result<Job>) {
    if zpopFails then
      r == Err(PopFailed) && s' == s
    else if s.queue == {} then
      r == Err(NotFound) && s' == s
    else
      exists j :: IsLowest(j, s.queue) && s'.queue == s.queue - {j} &&
        if hsetFails then r == Err(UpdateFailed) && s'.records == s.records
        else r == Ok(j) && s'.records == s.records[Key(j.id) := InProgress]
  }

  /** CompleteJob and FailJob (redis.go:105-117): HSET the given id's record
      to the given status, creating it if need be; the error is passed on. */
  ghost predicate Marked(s: StoreState, id: string, st: Status, hsetFails: bool, s': StoreState, err: Option<Error>) {
    if hsetFails then err == Some(WriteFailed) && s' == s
    else err == None && s' == s.(records := s.records[Key(id) := st])
  }

  /** A job added with a score below every queued score is the next one
      claimed, and it comes back with the id, name, score and status it was
      added with. */
  lemma AddThenClaim(s: StoreState, job: Job, s1: StoreState, err: Option<Error>, s2: StoreState, r: Result<Job>)
    requires forall o :: o in s.queue ==> job.score < o.score
    requires Added(s, job, false, false, s1, err)
    requires Claimed(s1, false, false, s2, r)
    ensures err == None && r == Ok(job)
    ensures s2.queue == s.queue && Lookup(s2, job.id) == Some(InProgress)
  {
    assert job in s1.queue;
    var j :| IsLowest(j, s1.queue) && s2.queue == s1.queue - {j} && r == Ok(j)
             && s2.records == s1.records[Key(j.id) := InProgress];
    assert j == job;
  }

  /** Marking a record sets exactly that id's status; every other id keeps
      what it had. */
  lemma MarkedTouchesOnlyItsRecord(s: StoreState, id: string, st: Status, s': StoreState, other: string)
    requires Marked(s, id, st, false, s', None)
    ensures Lookup(s', id) == Some(st)
    ensures other != id ==> Lookup(s', other) == Lookup(s, other)
    ensures s'.queue == s.queue
  {
    KeyInjective(id, other);
  }

  class JobStore {
    /** The sorted set's members; each is scored by its own score. */
    var queue: set<Job>
    /** The status field of each "task:<id>" hash. */
    var records: map<string, Status>

    function State(): StoreState
      reads this
    {
      StoreState(queue, records)
    }

    /** NewRedisRepository (redis.go:32-37) over a Redis server that already
        holds `queue0` in the sorted set and `records0` in its task hashes:
        the repository keeps no state of its own, so it sees them as they are. */
    constructor (queue0: set<Job>, records0: map<string, Status>)
      ensures State() == StoreState(queue0, records0)
    {
      queue := queue0;
      records := records0;
    }

    method AddJob(job: Job, zaddFails: bool, hsetFails: bool) returns (err: Option<Error>)
      modifies this
      ensures Added(old(State()), job, zaddFails, hsetFails, State(), err)
    {
      if zaddFails {
        return Some(AddFailed);
      }
      queue := queue + {job};
      if hsetFails {
        return Some(WriteFailed);
      }
      records := records[Key(job.id) := Pending];
      return None;
    }

    method GetJob(zpopFails: bool, hsetFails: bool) returns (r: Result<Job>)
      modifies this
      ensures Claimed(old(State()), zpopFails, hsetFails, State(), r)
    {
      if zpopFails {
        return Err(PopFailed);
      }
      if queue == {} {
        return Err(NotFound);
      }
      LowestExists(queue);
      var job :| IsLowest(job, queue);
      queue := queue - {job};
      if hsetFails {
        return Err(UpdateFailed);
      }
      records := records[Key(job.id) := InProgress];
      return Ok(job);
    }

    method CompleteJob(id: string, hsetFails: bool) returns (err: Option<Error>)
      modifies this
      ensures Marked(old(State()), id, Completed, hsetFails, State(), err)
    {
      if hsetFails {
        return Some(WriteFailed);
      }
      records := records[Key(id) := Completed];
      return None;
    }

    method FailJob(id: string, hsetFails: bool) returns (err: Option<Error>)
      modifies this
      ensures Marked(old(State()), id, Failed, hsetFails, State(), err)
    {
      if hsetFails {
        return Some(WriteFailed);
      }
      records := records[Key(id) := Failed];
      return None;
    }

    /** GetJobStatus (redis.go:119-135): the record's status, or None for a
        job that has no record; an HGETALL failure is an error. */
    method GetJobStatus(id: string, hgetFails: bool) returns (r: Result<Option<Status>>)
      ensures hgetFails <==> r.Err?
      ensures r.Err? ==> r.error == StatusReadFailed
      ensures r.Ok? ==> (r.value.Some? <==> Key(id) in records)
      ensures r.Ok? && r.value.Some? ==> records[Key(id)] == r.value.value
    {
      if hgetFails {
        return Err(StatusReadFailed);
      }
      return Ok(Lookup(State(), id));
    }
  }
}
