// A job's ScheduledAt and its first claim: a job stored Delayed waits for it, a job stored Pending
// need not, and a submitted job is stored Pending.
module EarlyClaims {
  import opened Core
  import opened JobStore
  import opened Protocol
  import opened Runs
  import ClaimHistory
  import LateWrites
  import ProtocolClaims
  import ProtocolRecords
  import Walks

  // ----- A job stored Delayed -----

  predicate WaitsIn(th: Thread, id: Id) {
    match th
    case Executing(i) => i != id
    case Saving(_, snap, _) => snap.id != id
    case Writing(call, snap, _) => snap.id == id ==> call.Cancel?
    case _ => true
  }

  // Nothing that is under way can make the job claimable.
  ghost predicate Idle(s: Sys, id: Id) {
    && id !in IdsOf(s.sched) && id !in IdsOf(s.delayed) && id !in IdsOf(s.recov)
    && forall tid :: tid in s.threads ==> WaitsIn(s.threads[tid], id)
  }

  predicate Asleep(jobs: map<Id, Job>, id: Id, due: Time) {
    id in jobs ==> jobs[id].state == Cancelled || (jobs[id].state == Delayed && jobs[id].scheduledAt == due)
  }

  // Until `due`, the job is Delayed, Cancelled or removed, and has not been claimed.
  ghost predicate Waits(s: Sys, id: Id, due: Time) {
    id in s.created && (s.now < due ==> id !in s.claims && Asleep(s.store.jobs, id, due) && Idle(s, id))
  }

  lemma StaysAsleep(c: Config, s: Sys, e: Event, id: Id, due: Time)
    requires LateWrites.Tidy(s) && id in s.created && Asleep(s.store.jobs, id, due) && Idle(s, id) && Enabled(c, s, e)
    ensures Asleep(Next(c, s, e).store.jobs, id, due)
  {
    if id !in s.store.jobs {
      StaysAway(c, s, e, id);
    } else if LateWrites.ActsOn(s, e, id) {
      LateWrites.WriteLeaves(c, s, e, id);
    } else {
      LateWrites.OthersLeaveAlone(c, s, e, id);
    }
  }

  lemma StaysAway(c: Config, s: Sys, e: Event, id: Id)
    requires LateWrites.Tidy(s) && id in s.created && id !in s.store.jobs && Enabled(c, s, e)
    ensures id !in Next(c, s, e).store.jobs
  {
    if LateWrites.WritesNoJob(e) {
      LateWrites.NoJobWritten(c, s, e);
    } else if e.Submit? {
      StaysUnsubmitted(c, s, e, id);
    }
  }

  lemma StaysUnsubmitted(c: Config, s: Sys, e: Event, id: Id)
    requires id in s.created && id !in s.store.jobs && Enabled(c, s, e) && e.Submit?
    ensures id !in Next(c, s, e).store.jobs
  {
  }

  lemma StaysUnclaimed(c: Config, s: Sys, e: Event, id: Id, due: Time)
    requires id !in s.claims && Asleep(s.store.jobs, id, due) && Enabled(c, s, e)
    ensures id !in Next(c, s, e).claims
  {
  }

  lemma StaysOutOfBatches(c: Config, s: Sys, e: Event, id: Id, due: Time)
    requires Asleep(s.store.jobs, id, due) && Idle(s, id) && Enabled(c, s, e) && s.now < due
    ensures var w := Next(c, s, e); id !in IdsOf(w.sched) && id !in IdsOf(w.delayed) && id !in IdsOf(w.recov)
  {
    if e.SchedRead? || e.SchedMark? {
      StaysOutOfSched(c, s, e, id, due);
    } else if e.DelayedRead? || e.RecoverRead? {
      StaysOutOfReads(c, s, e, id, due);
    } else if !e.SchedPush? && !e.DelayedMark? && !e.RecoverWrite? {
      LateWrites.SameBatches(c, s, e);
    }
  }

  lemma StaysOutOfReads(c: Config, s: Sys, e: Event, id: Id, due: Time)
    requires Asleep(s.store.jobs, id, due) && Idle(s, id) && Enabled(c, s, e) && s.now < due
    requires e.DelayedRead? || e.RecoverRead?
    ensures var w := Next(c, s, e); id !in IdsOf(w.sched) && id !in IdsOf(w.delayed) && id !in IdsOf(w.recov)
  {
  }

  lemma StaysOutOfSched(c: Config, s: Sys, e: Event, id: Id, due: Time)
    requires Asleep(s.store.jobs, id, due) && Idle(s, id) && Enabled(c, s, e) && (e.SchedRead? || e.SchedMark?)
    ensures var w := Next(c, s, e); id !in IdsOf(w.sched) && w.delayed == s.delayed && w.recov == s.recov
  {
    if e.SchedRead? {
      ClaimableIsPendingFilter(s.store.jobs, c.batchSize);
      assert IdsOf(e.batch) <= ClaimableIds(s.store.jobs);
    } else {
      HeadApart(s.sched);
      HeadApart(Next(c, s, e).sched);
      assert Next(c, s, e).sched[1..] == s.sched[1..];
    }
  }

  lemma StaysOutOfThreads(c: Config, s: Sys, e: Event, id: Id, due: Time)
    requires LateWrites.Tidy(s) && Asleep(s.store.jobs, id, due) && Idle(s, id) && Enabled(c, s, e)
    ensures forall tid :: tid in Next(c, s, e).threads ==> WaitsIn(Next(c, s, e).threads[tid], id)
  {
    if e.Ask? || e.Finish? {
      StaysOutOfCalls(c, s, e, id, due);
    } else if e.ClaimEntry? {
      StaysOutOfClaims(c, s, e, id, due);
    }
  }

  lemma StaysOutOfClaims(c: Config, s: Sys, e: Event, id: Id, due: Time)
    requires Asleep(s.store.jobs, id, due) && Idle(s, id) && Enabled(c, s, e) && e.ClaimEntry?
    ensures forall tid :: tid in Next(c, s, e).threads ==> WaitsIn(Next(c, s, e).threads[tid], id)
  {
  }

  lemma StaysOutOfCalls(c: Config, s: Sys, e: Event, id: Id, due: Time)
    requires LateWrites.Tidy(s) && Asleep(s.store.jobs, id, due) && Idle(s, id) && Enabled(c, s, e)
    requires e.Ask? || e.Finish?
    ensures forall tid :: tid in Next(c, s, e).threads ==> WaitsIn(Next(c, s, e).threads[tid], id)
  {
  }

  lemma StepWaits(c: Config, s: Sys, e: Event, id: Id, due: Time)
    requires LateWrites.Tidy(s) && Waits(s, id, due) && Enabled(c, s, e)
    ensures Waits(Next(c, s, e), id, due)
  {
    if Next(c, s, e).now < due {
      StaysAsleep(c, s, e, id, due);
      StaysUnclaimed(c, s, e, id, due);
      StaysOutOfBatches(c, s, e, id, due);
      StaysOutOfThreads(c, s, e, id, due);
    }
  }

  lemma {:induction false} RunWaits(c: Config, s: Sys, events: seq<Event>, id: Id, due: Time)
    requires ProtocolRecords.Inv(s) && Waits(s, id, due) && Run(c, s, events)
    ensures Waits(After(c, s, events), id, due)
    decreases |events|
  {
    if events != [] {
      LateWrites.InvIsTidy(s);
      StepWaits(c, s, events[0], id, due);
      ProtocolRecords.StepKeeps(c, s, events[0]);
      RunWaits(c, Next(c, s, events[0]), events[1..], id, due);
    }
  }

  // Of an id that was never created there is no trace.
  lemma FreshIsIdle(s: Sys, h: multiset<Id>, id: Id)
    requires ProtocolClaims.Inv(s, h) && ProtocolRecords.Inv(s) && ClaimHistory.Inv(s) && id !in s.created
    ensures Idle(s, id) && id !in s.claims
  {
    var v := ProtocolClaims.ViewOf(s, h);
    assert id !in v.claims && id !in v.marks && id !in v.due && id !in v.hints;
    assert IdsOf(s.sched) <= ProtocolClaims.MarkIds(s.sched) + ProtocolClaims.PushIds(s.sched);
    forall j | j in s.recov ensures j.id != id {
      assert ProtocolRecords.GoodSnap(s, j, s.recovSince);
    }
    forall tid | tid in s.threads ensures WaitsIn(s.threads[tid], id) {
      assert ProtocolRecords.GoodThread(s, s.threads[tid]);
      if s.threads[tid].Executing? {
        ClaimHistory.ExecutionIsClaimed(s, tid, s.threads[tid].id);
      }
    }
  }

  lemma SubmittedWaits(c: Config, before: seq<Event>, job: Job)
    requires Run(c, INIT, before) && Enabled(c, After(c, INIT, before), Submit(job)) && job.state == Delayed
    requires Create(After(c, INIT, before).store, job).1 == Done
    ensures var w := Submitted(After(c, INIT, before), job);
            ProtocolRecords.Inv(w) && Waits(w, job.id, job.scheduledAt)
  {
    var s := After(c, INIT, before);
    ProtocolRecords.RunKeeps(c, INIT, before);
    ProtocolRecords.StepKeeps(c, s, Submit(job));
    ProtocolClaims.InitInv();
    ProtocolClaims.RunKeeps(c, INIT, before, multiset{});
    ClaimHistory.InitInv();
    ClaimHistory.RunKeeps(c, INIT, before);
    FreshIsIdle(s, multiset{} + ProtocolClaims.HintedRetries(c, INIT, before), job.id);
  }

  // In every run, whatever is called: a job that was stored Delayed is not claimed before the time it
  // was stored with.
  lemma DelayedJobsWait(c: Config, before: seq<Event>, job: Job, later: seq<Event>)
    requires Run(c, INIT, before) && Enabled(c, After(c, INIT, before), Submit(job)) && job.state == Delayed
    requires Create(After(c, INIT, before).store, job).1 == Done
    requires Run(c, Submitted(After(c, INIT, before), job), later)
    ensures var end := After(c, Submitted(After(c, INIT, before), job), later);
            end.now < job.scheduledAt ==> end.claims[job.id] == 0
  {
    SubmittedWaits(c, before, job);
    RunWaits(c, Submitted(After(c, INIT, before), job), later, job.id, job.scheduledAt);
  }

  // ----- A job stored Pending -----

  predicate Any(e: Event) {
    true
  }

  // The state after the clock has reached `t` and the job has been submitted.
  function Alone(job: Job, t: Time): Sys {
    Submitted(INIT.(now := t), job)
  }

  ghost predicate MayRunEarly(c: Config, job: Job, t: Time) {
    exists end :: Reaches(c, Any, Alone(job, t), end) && end.now < job.scheduledAt && end.claims[job.id] > 0
  }

  // Whether a job can be claimed before its time depends on the state it is stored in, and on nothing else.
  lemma EarlyIffStoredPending(c: Config, job: Job, t: Time)
    requires Untouched(job) && INIT.now <= t < job.scheduledAt
    ensures MayRunEarly(c, job, t) <==> job.state == Pending
  {
    var start := Alone(job, t);
    if job.state == Pending {
      Here(c, Walks.OnItsOwn, start);
      var end := Walks.ClaimCarriedOut(c, start, start, job.id);
      assert Reaches(c, Any, start, end) && end.claims[job.id] > 0;
    } else {
      forall end | Reaches(c, Any, start, end) && end.now < job.scheduledAt ensures end.claims[job.id] == 0 {
        var later :| Run(c, start, later) && After(c, start, later) == end;
        var tick := [Tick(t)];
        assert tick[1..] == [];
        assert Run(c, INIT.(now := t), []) && After(c, INIT, tick) == INIT.(now := t);
        DelayedJobsWait(c, tick, job, later);
      }
    }
  }

  // So the delay asked for at submission does not hold the first claim back: NewJob makes the record Pending
  // whatever the options, and Enqueue only edits the caller's copy afterwards.
  lemma DelayedSubmissionMayRunEarly(c: Config, job: Job, id: Id, jobType: string, opts: seq<JobOption>, t: Time)
    requires Built(job, id, jobType, opts, t) && INIT.now <= t < job.scheduledAt
    ensures MayRunEarly(c, job, t)
  {
    EarlyIffStoredPending(c, job, t);
  }
}
