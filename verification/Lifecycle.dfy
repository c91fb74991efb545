// The records that the store, the scheduler and the recovery manager write over a job.
module Lifecycle {
  import opened Core

  function Claim(j: Job, worker: string, now: Time): Job {
    j.(state := Running, workerId := worker, startedAt := now, updatedAt := now, attempt := j.attempt + 1)
  }

  function Complete(j: Job, t: Time): Job {
    j.(state := Completed, completedAt := t, updatedAt := t)
  }

  function EffectiveCategory(r: JobResult): ErrorCategory {
    if r.category == NoCategory then System else r.category
  }

  predicate ShouldRetry(j: Job, r: JobResult) {
    EffectiveCategory(r) == Temporary && j.attempt < j.maxAttempts
  }

  function Fail(j: Job, r: JobResult, delay: Duration, t: Time): Job {
    var told := j.(lastError := r.error, errorCategory := EffectiveCategory(r), updatedAt := t);
    if ShouldRetry(j, r) then
      told.(state := Retrying, scheduledAt := t + delay)
    else if j.attempt >= j.maxAttempts then
      told.(state := DeadLetter, completedAt := t)
    else
      told.(state := Failed, completedAt := t)
  }

  // What Cancel does with the record it has read.
  datatype Verdict = Refuse | Ignore | Proceed

  function CancelVerdict(j: Job, force: bool): Verdict {
    if j.IsTerminal() then Refuse
    else if j.state == Running && !force then Ignore
    else Proceed
  }

  function Cancel(j: Job, reason: string, t: Time): Job {
    j.(state := Cancelled, completedAt := t, updatedAt := t, lastError := reason)
  }

  predicate Retriable(j: Job) {
    j.state == Failed || j.state == DeadLetter
  }

  function Retry(j: Job, resetAttempts: bool, t: Time): Job {
    j.(attempt := if resetAttempts then 0 else j.attempt,
       state := Pending, updatedAt := t, completedAt := ZERO_TIME, lastError := "", errorCategory := NoCategory)
  }

  function Recover(j: Job, t: Time): Job {
    if j.attempt < j.maxAttempts then
      j.(state := Retrying, workerId := "", scheduledAt := t + j.attempt * SECOND * 10, updatedAt := t)
    else
      j.(state := DeadLetter, completedAt := t, lastError := "job exceeded visibility timeout", updatedAt := t)
  }

  predicate Stuck(j: Job, cutoff: Time) {
    j.state == Running && j.startedAt != ZERO_TIME && j.startedAt < cutoff
  }

  // What no scheduler write changes: who the job is and where it ranks.
  predicate SameIdentity(a: Job, b: Job) {
    && a.id == b.id && a.idempotencyKey == b.idempotencyKey
    && a.priority == b.priority && a.createdAt == b.createdAt
    && a.maxAttempts == b.maxAttempts && a.backoff == b.backoff
  }

  // A record that is consistent with the clock `now` and with its own state.
  predicate Consistent(j: Job, now: Time) {
    && 0 <= j.attempt
    && ZERO_TIME <= j.startedAt <= now
    && (j.state == Retrying || j.state == Failed ==> j.attempt < j.maxAttempts)
    && (j.state == DeadLetter ==> j.maxAttempts <= j.attempt)
    && (j.IsTerminal() ==> j.completedAt != ZERO_TIME && j.startedAt <= j.completedAt)
    && (j.state == Running ==> j.startedAt != ZERO_TIME && 1 <= j.attempt)
  }
}
