/** Option values and the error outcomes shared by the job store, the job
    service and the worker pool. */
module Results {

  datatype Option<+T> = None | Some(value: T)

  /** The errors the store and the service return. Go wraps most of them in a
      message from internal/errors; here each kind is one constructor. */
  datatype Error =
    | AddFailed         // ZADD failed ("Error adding job")
    | PopFailed         // ZPOPMIN failed ("Error getting job")
    | NotFound          // the queue was empty ("Job not found")
    | UpdateFailed      // GetJob's HSET to in_progress failed ("Error updating job")
    | WriteFailed       // an HSET error passed on unwrapped (AddJob's record, CompleteJob, FailJob)
    | StatusReadFailed  // HGETALL failed ("Error getting job status")
    | GenerateFailed    // the ID generator failed ("Error generating ID")

  /** A value or the error that replaced it (Go's `(T, error)` pair). */
  datatype Result<+T> = Ok(value: T) | Err(error: Error)
}
