/** The job service (internal/service/job.go): builds pending jobs and
    passes claims and status queries through to the job store. The store
    stands in for the JobRepository interface; the ID generator's answer is
    a parameter. */
module Service {
  import opened Results
  import opened Store

  /** The job CreateJob hands to the store (job.go:38-44); the status string
      is the one redis.go names StatusPending. CreatedAt is left out. */
  function NewJob(id: string, name: string, score: real): (j: Job)
    ensures j.id == id && j.name == name && j.score == score
    ensures j.status == StatusName(Pending)
  {
    Job(id, name, score, "pending")
  }

  /** CreateJob (job.go:31-47). `generated` is what GenerateID(32) returned. */
  method CreateJob(store: JobStore, name: string, score: real, generated: Result<string>,
                   zaddFails: bool, hsetFails: bool)
    returns (id: string, err: Option<Error>)
    modifies store
    ensures generated.Err? ==> id == "" && err == Some(generated.error) && store.State() == old(store.State())
    ensures generated.Ok? ==> id == generated.value
    ensures generated.Ok? ==>
              Added(old(store.State()), NewJob(id, name, score), zaddFails, hsetFails, store.State(), err)
  {
    if generated.Err? {
      return "", Some(generated.error);
    }
    id := generated.value;
    var job := NewJob(id, name, score);
    err := store.AddJob(job, zaddFails, hsetFails);
  }

  /** GetJob (job.go:49-57): the store's answer, job or error, unchanged. */
  method GetJob(store: JobStore, zpopFails: bool, hsetFails: bool) returns (r: Result<Job>)
    modifies store
    ensures Claimed(old(store.State()), zpopFails, hsetFails, store.State(), r)
  {
    r := store.GetJob(zpopFails, hsetFails);
  }

  /** GetJobStatus (job.go:59-67): the store's status answer unchanged; an
      error from the store comes back as the error. */
  method GetJobStatus(store: JobStore, id: string, hgetFails: bool) returns (r: Result<Option<Status>>)
    ensures hgetFails <==> r.Err?
    ensures r.Err? ==> r.error == StatusReadFailed
    ensures r.Ok? ==> r.value == Lookup(store.State(), id)
  {
    r := store.GetJobStatus(id, hgetFails);
  }

  /** A job created while the queue holds only higher scores is the next one
      claimed through the service, with the generated id, the given name and
      score, and status "pending" in the job value; its record then reads
      in_progress. */
  lemma CreateThenClaim(s: StoreState, id: string, name: string, score: real,
                        s1: StoreState, err: Option<Error>, s2: StoreState, r: Result<Job>)
    requires forall o :: o in s.queue ==> score < o.score
    requires Added(s, NewJob(id, name, score), false, false, s1, err)
    requires Claimed(s1, false, false, s2, r)
    ensures err == None && r.Ok?
    ensures r.value.id == id && r.value.name == name && r.value.score == score
    ensures r.value.status == "pending"
    ensures Lookup(s2, id) == Some(InProgress)
  {
    AddThenClaim(s, NewJob(id, name, score), s1, err, s2, r);
  }
}
