// The scheduler and the recovery manager as objects over a BoltStore, and the submission of a job
// (scheduler/scheduler.go, recovery/manager.go, api/handlers.go). Each method runs alone here, at one
// clock reading; module Protocol interleaves their store calls.
module Scheduler {
  import opened Core
  import opened JobStore
  import opened BoltStore
  import opened Listing
  import Actions
  import BackoffDelay
  import Float64Math
  import Lifecycle
  import RecoveryPass

  class PriorityScheduler {
    const store: BoltStore
    const batchSize: Size
    const floats: Float64Math.Floats  // the machine's arithmetic
    var jobCh: seq<Job>
    var enqueued: nat
    var completed: nat
    var failed: nat

    ghost predicate Valid()
      reads this, store
    {
      store.Valid() && |jobCh| <= batchSize
    }

    constructor (store: BoltStore, batchSize: Size, floats: Float64Math.Floats)
      requires store.Valid()
      ensures Valid() && this.store == store && this.batchSize == batchSize && this.floats == floats && jobCh == []
    {
      this.store, this.batchSize, this.floats := store, batchSize, floats;
      jobCh, enqueued, completed, failed := [], 0, 0, 0;
    }

    // scheduleJobs' loop.
    method SendToWorkers(jobs: seq<Job>, now: Time) returns (ghost sent: seq<Job>)
      requires Valid()
      modifies this`jobCh, store
      ensures Valid() && jobCh == old(jobCh) + sent
      ensures (store.Abs(), sent) == Actions.ScheduleBatch(old(store.Abs()), jobs, batchSize - |old(jobCh)|, now)
    {
      ghost var goal := Actions.ScheduleBatch(store.Abs(), jobs, batchSize - |jobCh|, now);
      sent := [];
      for i := 0 to |jobs|
        invariant Valid() && jobCh == old(jobCh) + sent
        invariant var (st, rest) := Actions.ScheduleBatch(store.Abs(), jobs[i..], batchSize - |jobCh|, now);
                  goal.0 == st && goal.1 == sent + rest
      {
        assert jobs[i..][0] == jobs[i] && jobs[i..][1..] == jobs[i + 1..];
        var job := jobs[i];
        if job.state == Pending {
          var _ := store.UpdateState(job.id, Scheduled, now);
          job := job.(state := Scheduled);
        }
        if |jobCh| < batchSize {
          jobCh := jobCh + [job];
          sent := sent + [job];
          assert forall rest: seq<Job> {:trigger [job] + rest} :: sent + rest == sent[..|sent| - 1] + ([job] + rest);
        } else {
          assert sent + [] == sent;
          return;
        }
      }
      assert jobs[|jobs|..] == [] && sent + [] == sent;
    }

    // What scheduleJobs reads, sorted once more.
    method PendingBatch() returns (jobs: seq<Job>)
      requires Valid()
      ensures JobStore.Listing(store.Abs(), PendingFilter(batchSize), PriorityAsc, jobs)
    {
      var listed := store.GetPending(batchSize);
      jobs := SortJobs(listed, PriorityAsc);
      SortedListing(store.Abs(), batchSize, listed, jobs);
    }

    // scheduleJobs: marks and pushes the top of the queue, as far as the channel has room.
    method ScheduleJobs(now: Time) returns (ghost batch: seq<Job>, ghost pushed: seq<Job>)
      requires Valid()
      modifies this`jobCh, store
      ensures Valid() && jobCh == old(jobCh) + pushed
      ensures JobStore.Listing(old(store.Abs()), PendingFilter(batchSize), PriorityAsc, batch)
      ensures Actions.CycleEffect(old(store.Abs()), batch, batchSize - |old(jobCh)|, now, store.Abs(), pushed)
    {
      var jobs := PendingBatch();
      batch := jobs;
      pushed := SendToWorkers(jobs, now);
      Actions.CycleHasEffect(old(store.Abs()), batchSize, batch, batchSize - |old(jobCh)|, now, store.Abs(), pushed);
    }

    method ProcessDelayedJobs(now: Time) returns (ghost batch: seq<Job>)
      requires Valid()
      modifies store
      ensures Valid() && FirstDue(old(store.Abs()).jobs, now, batchSize, batch)
      ensures store.Abs() == old(store.Abs()).(jobs := store.Abs().jobs) && store.Abs().jobs.Keys == old(store.Abs()).jobs.Keys
      ensures forall id :: id in old(store.Abs()).jobs ==>
                store.Abs().jobs[id] == if id in IdsOf(batch) then old(store.Abs()).jobs[id].(state := Scheduled, updatedAt := now)
                                        else old(store.Abs()).jobs[id]
    {
      var jobs := store.GetDelayed(now, batchSize);
      batch := jobs;
      Actions.ReleaseInFields(store.Abs(), jobs, now);
      for i := 0 to |jobs|
        invariant Valid()
        invariant Actions.ReleaseBatch(store.Abs(), jobs[i..], now) == Actions.ReleaseBatch(old(store.Abs()), jobs, now)
      {
        assert jobs[i..][0] == jobs[i] && jobs[i..][1..] == jobs[i + 1..];
        var _ := store.UpdateState(jobs[i].id, Scheduled, now);
      }
    }

    // Enqueue edits the caller's record only: the store keeps the one it was given before.
    method Enqueue(job: Job, now: Time) returns (edited: Job)
      requires Valid()
      modifies this`enqueued
      ensures Valid() && enqueued == old(enqueued) + 1
      ensures store.Abs() == old(store.Abs())
      ensures edited.state == (if job.delay > 0 || (job.scheduledAt != ZERO_TIME && job.scheduledAt > now) then Delayed else Pending)
      ensures edited.scheduledAt == if job.delay > 0 then now + job.delay else job.scheduledAt
      ensures edited == job.(state := edited.state, scheduledAt := edited.scheduledAt)
    {
      enqueued := enqueued + 1;
      if job.delay > 0 {
        edited := job.(state := Delayed, scheduledAt := now + job.delay);
      } else if job.scheduledAt != ZERO_TIME && job.scheduledAt > now {
        edited := job.(state := Delayed);
      } else {
        edited := job.(state := Pending);
      }
    }

    // GetNextJob, once an entry is there.
    method GetNextJob() returns (job: Job)
      requires Valid() && jobCh != []
      modifies this`jobCh
      ensures Valid() && [job] + jobCh == old(jobCh)
    {
      job := jobCh[0];
      jobCh := jobCh[1..];
    }

    method Complete(id: Id, result: JobResult, now: Time) returns (status: Actions.ActionStatus)
      requires Valid()
      modifies this`completed, store
      ensures Valid() && completed == old(completed) + 1
      ensures (store.Abs(), status) == Actions.Complete(old(store.Abs()), id, result, now)
      ensures id !in old(store.Abs()).jobs ==> status == Actions.Missing && store.Abs() == old(store.Abs())
      ensures id in old(store.Abs()).jobs ==>
                var was := old(store.Abs());
                && status == Actions.Ok
                && store.Abs() == was.(jobs := was.jobs[id := was.jobs[id].(state := Completed, completedAt := now, updatedAt := now)],
                                       results := was.results[result.jobId := result])
    {
      completed := completed + 1;
      var read := store.Get(id);
      if read.None? {
        return Actions.Missing;
      }
      assert read.value.id == id;
      var job := read.value.(state := Completed, completedAt := now, updatedAt := now);
      var updated := store.Update(job, now);
      if updated != Done {
        return Actions.Missing;
      }
      store.SaveResult(result);
      status := Actions.Ok;
    }

    // `delay` is the backoff where it is defined, and any value elsewhere.
    method Fail(id: Id, result: JobResult, now: Time) returns (status: Actions.ActionStatus, ghost delay: Duration)
      requires Valid()
      modifies this`failed, store
      ensures Valid() && failed == old(failed) + 1
      ensures (store.Abs(), status) == Actions.Fail(old(store.Abs()), id, result, delay, now)
      ensures id !in old(store.Abs()).jobs ==> status == Actions.Missing && store.Abs() == old(store.Abs())
      ensures id in old(store.Abs()).jobs ==>
                var was, job := old(store.Abs()), old(store.Abs()).jobs[id];
                var category := if result.category == NoCategory then System else result.category;
                var told := job.(lastError := result.error, errorCategory := category, updatedAt := now);
                && status == Actions.Ok && store.Abs().results == was.results[result.jobId := result]
                && store.Abs() == was.(jobs := store.Abs().jobs, results := store.Abs().results)
                && (job.attempt >= job.maxAttempts ==>
                      store.Abs().jobs == was.jobs[id := told.(state := DeadLetter, completedAt := now)])
                && (job.attempt < job.maxAttempts && category == Temporary ==>
                      store.Abs().jobs == was.jobs[id := told.(state := Retrying, scheduledAt := now + delay)])
                && (job.attempt < job.maxAttempts && category != Temporary ==>
                      store.Abs().jobs == was.jobs[id := told.(state := JobState.Failed, completedAt := now)])
      ensures id in old(store.Abs()).jobs ==>
                var job := old(store.Abs()).jobs[id];
                BackoffDelay.Fits(floats, job.attempt, job.backoff) ==>
                  delay == BackoffDelay.CalculateBackoff(floats, job.attempt, job.backoff)
    {
      failed := failed + 1;
      delay := 0;
      var read := store.Get(id);
      if read.None? {
        return Actions.Missing, 0;
      }
      var job := read.value;
      assert job.id == id;
      store.SaveResult(result);
      var category := result.category;
      if category == NoCategory {
        category := System;
      }
      var wait: Duration := *;
      if BackoffDelay.Fits(floats, job.attempt, job.backoff) {
        wait := BackoffDelay.CalculateBackoff(floats, job.attempt, job.backoff);
      }
      delay := wait;
      if category == Temporary && job.attempt < job.maxAttempts {
        job := job.(state := Retrying, scheduledAt := now + wait, lastError := result.error, errorCategory := category);
      } else if job.attempt >= job.maxAttempts {
        job := job.(state := DeadLetter, completedAt := now, lastError := result.error, errorCategory := category);
      } else {
        job := job.(state := Failed, completedAt := now, lastError := result.error, errorCategory := category);
      }
      job := job.(updatedAt := now);
      var _ := store.Update(job, now);
      status := Actions.Ok;
    }

    method Cancel(id: Id, reason: string, force: bool, now: Time) returns (status: Actions.ActionStatus)
      requires Valid()
      modifies store
      ensures Valid() && (store.Abs(), status) == Actions.Cancel(old(store.Abs()), id, reason, force, now)
      ensures id !in old(store.Abs()).jobs ==> status == Actions.Missing && store.Abs() == old(store.Abs())
      ensures id in old(store.Abs()).jobs ==>
                var was, job := old(store.Abs()), old(store.Abs()).jobs[id];
                if job.state == Completed || job.state == JobState.Failed || job.state == DeadLetter || job.state == Cancelled then
                  status == Actions.NotCancellable && store.Abs() == was
                else if job.state == Running && !force then
                  status == Actions.Ok && store.Abs() == was
                else
                  && status == Actions.Ok
                  && store.Abs() == was.(jobs := was.jobs[id :=
                       job.(state := Cancelled, completedAt := now, updatedAt := now, lastError := reason)])
    {
      var read := store.Get(id);
      if read.None? {
        return Actions.Missing;
      }
      var job := read.value;
      assert job.id == id;
      match job.state {
        case Completed => return Actions.NotCancellable;
        case Failed => return Actions.NotCancellable;
        case DeadLetter => return Actions.NotCancellable;
        case Cancelled => return Actions.NotCancellable;
        case Running => if !force { return Actions.Ok; }
        case _ =>
      }
      job := job.(state := Cancelled, completedAt := now, updatedAt := now, lastError := reason);
      var _ := store.Update(job, now);
      status := Actions.Ok;
    }

    method Retry(id: Id, resetAttempts: bool, now: Time) returns (status: Actions.ActionStatus)
      requires Valid()
      modifies store
      ensures Valid() && (store.Abs(), status) == Actions.Retry(old(store.Abs()), id, resetAttempts, now)
      ensures id !in old(store.Abs()).jobs ==> status == Actions.Missing && store.Abs() == old(store.Abs())
      ensures id in old(store.Abs()).jobs ==>
                var was, job := old(store.Abs()), old(store.Abs()).jobs[id];
                if job.state == JobState.Failed || job.state == DeadLetter then
                  && status == Actions.Ok
                  && store.Abs() == was.(jobs := was.jobs[id :=
                       job.(state := Pending, attempt := if resetAttempts then 0 else job.attempt, updatedAt := now,
                            completedAt := 0, lastError := "", errorCategory := NoCategory)])
                else
                  status == Actions.NotCancellable && store.Abs() == was
    {
      var read := store.Get(id);
      if read.None? {
        return Actions.Missing;
      }
      var job := read.value;
      assert job.id == id;
      if job.state != Failed && job.state != DeadLetter {
        return Actions.NotCancellable;
      }
      if resetAttempts {
        job := job.(attempt := 0);
      }
      job := job.(state := Pending, updatedAt := now, completedAt := ZERO_TIME, lastError := "", errorCategory := NoCategory);
      var _ := store.Update(job, now);
      status := Actions.Ok;
    }
  }

  // Sorting a listing once more, as scheduleJobs does, gives a listing.
  lemma SortedListing(s: Store, limit: int, listed: seq<Job>, again: seq<Job>)
    requires JobStore.Listing(s, PendingFilter(limit), PriorityAsc, listed)
    requires multiset(again) == multiset(listed) && Sorted(PriorityAsc, again)
    ensures JobStore.Listing(s, PendingFilter(limit), PriorityAsc, again)
  {
    PermutedSnapshot(s.jobs, listed, again);
  }

  class SimpleRecoveryManager {
    const store: BoltStore
    const visibilityTimeout: Duration
    var stuckJobsRecovered: nat

    constructor (store: BoltStore, visibilityTimeout: Duration)
      ensures this.store == store && this.visibilityTimeout == visibilityTimeout && stuckJobsRecovered == 0
    {
      this.store, this.visibilityTimeout := store, visibilityTimeout;
      stuckJobsRecovered := 0;
    }

    // What the loop makes of one record.
    static method Recovered(stuck: Job, now: Time) returns (job: Job)
      ensures job == Lifecycle.Recover(stuck, now)
    {
      job := stuck;
      if job.attempt < job.maxAttempts {
        job := job.(state := Retrying, workerId := "", scheduledAt := now + job.attempt * SECOND * 10);
      } else {
        job := job.(state := DeadLetter, completedAt := now, lastError := "job exceeded visibility timeout");
      }
      job := job.(updatedAt := now);
    }

    // RecoverStuckJobs' loop.
    method RecoverEach(jobs: seq<Job>, now: Time) returns (recovered: nat)
      requires store.Valid()
      modifies this`stuckJobsRecovered, store
      ensures store.Valid()
      ensures (store.Abs(), recovered) == Actions.RecoverBatch(old(store.Abs()), jobs, now)
      ensures stuckJobsRecovered == old(stuckJobsRecovered) + recovered
    {
      recovered := 0;
      ghost var goal := Actions.RecoverBatch(store.Abs(), jobs, now);
      for i := 0 to |jobs|
        invariant store.Valid() && stuckJobsRecovered == old(stuckJobsRecovered) + recovered
        invariant var (st, n) := Actions.RecoverBatch(store.Abs(), jobs[i..], now); goal == (st, recovered + n)
      {
        assert jobs[i..][0] == jobs[i] && jobs[i..][1..] == jobs[i + 1..];
        var job := Recovered(jobs[i], now);
        var updated := store.Update(job, now);
        if updated != Done {
          continue;
        }
        recovered := recovered + 1;
        stuckJobsRecovered := stuckJobsRecovered + 1;
      }
    }

    // Moves exactly the stuck jobs, and counts them.
    method RecoverStuckJobs(now: Time) returns (recovered: nat, ghost batch: seq<Job>)
      requires store.Valid()
      modifies this`stuckJobsRecovered, store
      ensures store.Valid() && RecoveryPass.StuckList(old(store.Abs()), now - visibilityTimeout, batch)
      ensures (store.Abs(), recovered) == Actions.RecoverBatch(old(store.Abs()), batch, now)
      ensures recovered == |StuckIds(old(store.Abs()).jobs, now - visibilityTimeout)|
      ensures StuckIds(store.Abs().jobs, now - visibilityTimeout) == {}
      ensures RecoveryPass.MovedInFields(old(store.Abs()), store.Abs(), now, visibilityTimeout)
      ensures stuckJobsRecovered == old(stuckJobsRecovered) + recovered
    {
      var jobs := store.GetStuck(now, visibilityTimeout);
      batch := jobs;
      RecoveryPass.PassMovesTheStuck(store.Abs(), jobs, now, visibilityTimeout);
      RecoveryPass.PassInFields(store.Abs(), jobs, now, visibilityTimeout);
      recovered := RecoverEach(jobs, now);
    }
  }

  // ----- Submission -----

  datatype Submission = Accepted(job: Job) | AlreadyHeld(job: Job) | Conflict

  // Does a stored job hold this key?
  predicate Holds(jobs: map<Id, Job>, id: Id, key: string) {
    id in jobs && jobs[id].idempotencyKey == key != ""
  }

  lemma HolderIsIndexed(s: Store, key: string)
    requires WellFormed(s)
    ensures forall holder :: Holds(s.jobs, holder, key) ==> key in s.idem && s.idem[key] == holder
    ensures key in s.idem ==> Holds(s.jobs, s.idem[key], key)
  {
    forall holder | Holds(s.jobs, holder, key) ensures key in s.idem && s.idem[key] == holder {
      KeyHeldOnce(s, holder, holder);
    }
  }

  // What submitJob answers once Create has failed: it looks the key up in the store it then finds.
  function Refused(s: Store, key: string): Submission {
    var existing := if key == "" then None else GetByIdempotencyKey(s, key);
    if existing.Some? then AlreadyHeld(existing.value) else Conflict
  }

  // submitJob after the request is parsed: creates the job, or answers with the holder of its key.
  method SubmitJob(sched: PriorityScheduler, id: Id, jobType: string, opts: seq<JobOption>, now: Time)
    returns (answer: Submission)
    requires sched.Valid() && WellFormed(sched.store.Abs())
    requires forall o :: o in opts ==> !o.WithId?
    modifies sched`enqueued, sched.store
    ensures sched.Valid() && WellFormed(sched.store.Abs())
    ensures var was, key := old(sched.store.Abs()), KeyAsked(opts);
            && (forall holder :: holder in was.jobs && key != "" && was.jobs[holder].idempotencyKey == key ==>
                  answer == AlreadyHeld(was.jobs[holder]) && sched.store.Abs() == was)
            && (answer.AlreadyHeld? ==> exists holder :: Holds(was.jobs, holder, key))
            && (answer == Conflict ==> id in was.jobs && sched.store.Abs() == was)
            && (answer.Accepted? <==> id !in was.jobs && forall holder :: !Holds(was.jobs, holder, key))
            && (!answer.Accepted? ==> answer == Refused(was, key))
    ensures answer.Accepted? ==>
              var was, st := old(sched.store.Abs()), sched.store.Abs();
              && id in st.jobs && Built(st.jobs[id], id, jobType, opts, now) && st.jobs == was.jobs[id := st.jobs[id]]
              && st == was.(jobs := st.jobs, idem := if KeyAsked(opts) == "" then was.idem else was.idem[KeyAsked(opts) := id])
    ensures answer.Accepted? ==>
              var stored := sched.store.Abs().jobs[id];
              answer.job == stored.(
                state := if stored.delay > 0 || (stored.scheduledAt != 0 && stored.scheduledAt > now) then Delayed else Pending,
                scheduledAt := if stored.delay > 0 then now + stored.delay else stored.scheduledAt)
    ensures sched.enqueued == old(sched.enqueued) + if answer.Accepted? then 1 else 0
  {
    var job := NewJob(id, jobType, opts, now);
    IdIsKept(opts);
    ghost var was := sched.store.Abs();
    HolderIsIndexed(was, job.idempotencyKey);
    CreateKeepsIndex(was, job);
    var created := sched.store.Create(job);
    if created != Done {
      if job.idempotencyKey != "" {
        var existing := sched.store.GetByIdempotencyKey(job.idempotencyKey);
        if existing.Some? {
          return AlreadyHeld(existing.value);
        }
      }
      return Conflict;
    }
    var edited := sched.Enqueue(job, now);
    answer := Accepted(edited);
  }

  lemma {:induction false} IdIsKept(opts: seq<JobOption>)
    requires forall o :: o in opts ==> !o.WithId?
    ensures LastWriter(opts, IdField) == None
    decreases |opts|
  {
    if opts != [] {
      IdIsKept(opts[..|opts| - 1]);
    }
  }
}
