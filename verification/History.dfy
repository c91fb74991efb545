// What the store holds of a run: the last claim of each job, the last result and the last checkpoint saved
// for it (persistence/bolt_store.go, scheduler/scheduler.go).
module History {
  import opened Core
  import opened JobStore
  import opened Protocol
  import Lifecycle

  // ----- The last claim -----

  // Does the step claim the job?
  ghost predicate Claims(s: Sys, e: Event, id: Id) {
    && e.ClaimEntry? && e.tid in s.threads && s.threads[e.tid].Holding? && s.threads[e.tid].entry.id == id
    && id in s.store.jobs && (s.store.jobs[id].state == Pending || s.store.jobs[id].state == Scheduled)
  }

  // The clock at the last claim of the job, or `was` if the run has none.
  ghost function LastClaim(c: Config, s: Sys, events: seq<Event>, id: Id, was: Time): Time
    requires Run(c, s, events)
    decreases |events|
  {
    if events == [] then was
    else LastClaim(c, Next(c, s, events[0]), events[1..], id, if Claims(s, events[0], id) then s.now else was)
  }

  // A Running record is the one its last claim wrote.
  ghost predicate StartedAt(c: Config, s: Sys, id: Id, t: Time) {
    id in s.store.jobs && s.store.jobs[id].state == Running ==>
      s.store.jobs[id].startedAt == t && s.store.jobs[id].updatedAt == t && s.store.jobs[id].workerId == c.workerId
  }

  lemma WritesNoRunning(s: Store, job: Job, now: Time, id: Id)
    requires job.state != Running
    ensures var t := Update(s, job, now).0;
            id in t.jobs && t.jobs[id].state == Running ==> id in s.jobs && t.jobs[id] == s.jobs[id]
  {
  }

  lemma MarksNoRunning(s: Store, marked: Id, now: Time, id: Id)
    ensures var t := UpdateState(s, marked, Scheduled, now).0;
            id in t.jobs && t.jobs[id].state == Running ==> id in s.jobs && t.jobs[id] == s.jobs[id]
  {
  }

  lemma EditsNoRunning(call: Call, snap: Job, t: Time, delay: Duration)
    ensures Edited(call, snap, t, delay).state != Running
  {
  }

  lemma WriteStartsNone(c: Config, s: Sys, e: Event, id: Id)
    requires Enabled(c, s, e) && (e.Write? || e.RecoverWrite?)
    requires id in Next(c, s, e).store.jobs && Next(c, s, e).store.jobs[id].state == Running
    ensures id in s.store.jobs && Next(c, s, e).store.jobs[id] == s.store.jobs[id]
  {
    if e.Write? {
      var th := s.threads[e.tid];
      EditsNoRunning(th.call, th.snap, e.t, e.delay);
      WritesNoRunning(s.store, Edited(th.call, th.snap, e.t, e.delay), s.now, id);
    } else {
      WritesNoRunning(s.store, Lifecycle.Recover(s.recov[0], e.t), s.now, id);
    }
  }

  lemma SetStartsNone(c: Config, s: Sys, e: Event, id: Id)
    requires Enabled(c, s, e) && !Claims(s, e, id)
    requires e.Submit? || e.SchedMark? || e.DelayedMark? || e.ClaimEntry? || e.Remove? || e.Sweep?
    requires id in Next(c, s, e).store.jobs && Next(c, s, e).store.jobs[id].state == Running
    ensures id in s.store.jobs && Next(c, s, e).store.jobs[id] == s.store.jobs[id]
  {
    match e {
      case SchedMark => MarksNoRunning(s.store, s.sched[0].id, s.now, id);
      case DelayedMark => MarksNoRunning(s.store, s.delayed[0].id, s.now, id);
      case _ =>
    }
  }

  // Every other step leaves the records that are Running after it as they were.
  lemma OnlyClaimsStart(c: Config, s: Sys, e: Event, id: Id)
    requires Enabled(c, s, e) && !Claims(s, e, id)
    requires id in Next(c, s, e).store.jobs && Next(c, s, e).store.jobs[id].state == Running
    ensures id in s.store.jobs && Next(c, s, e).store.jobs[id] == s.store.jobs[id]
  {
    if e.Write? || e.RecoverWrite? {
      WriteStartsNone(c, s, e, id);
    } else if e.Submit? || e.SchedMark? || e.DelayedMark? || e.ClaimEntry? || e.Remove? || e.Sweep? {
      SetStartsNone(c, s, e, id);
    }
  }

  lemma StepStarts(c: Config, s: Sys, e: Event, id: Id, was: Time)
    requires Enabled(c, s, e) && StartedAt(c, s, id, was)
    ensures StartedAt(c, Next(c, s, e), id, if Claims(s, e, id) then s.now else was)
  {
    var next := Next(c, s, e);
    if !Claims(s, e, id) && id in next.store.jobs && next.store.jobs[id].state == Running {
      OnlyClaimsStart(c, s, e, id);
    }
  }

  lemma {:induction false} RunStarts(c: Config, s: Sys, events: seq<Event>, id: Id, was: Time)
    requires Run(c, s, events) && StartedAt(c, s, id, was)
    ensures StartedAt(c, After(c, s, events), id, LastClaim(c, s, events, id, was))
    decreases |events|
  {
    if events != [] {
      StepStarts(c, s, events[0], id, was);
      RunStarts(c, Next(c, s, events[0]), events[1..], id, if Claims(s, events[0], id) then s.now else was);
    }
  }

  // In every run a Running job has started at its last claim, however often it was claimed before.
  lemma RunningSinceLastClaim(c: Config, events: seq<Event>, id: Id)
    requires Run(c, INIT, events)
    requires id in After(c, INIT, events).store.jobs && After(c, INIT, events).store.jobs[id].state == Running
    ensures var job := After(c, INIT, events).store.jobs[id];
            && job.startedAt == LastClaim(c, INIT, events, id, 0)
            && job.updatedAt == job.startedAt && job.workerId == c.workerId
  {
    RunStarts(c, INIT, events, id, 0);
  }

  // So the recovery loop never lists a job whose last claim is not older than its cutoff.
  lemma FreshClaimsAreNotStuck(c: Config, events: seq<Event>, batch: seq<Job>, asOf: Time, j: Job)
    requires Run(c, INIT, events) && Enabled(c, After(c, INIT, events), RecoverRead(batch, asOf)) && j in batch
    ensures LastClaim(c, INIT, events, j.id, 0) < asOf - c.visibility
  {
    assert j.id in IdsOf(batch);
    RunningSinceLastClaim(c, events, j.id);
  }

  // ----- The last result and the last checkpoint -----

  // The result a step saves, if it is one that saves.
  ghost function Reported(s: Sys, e: Event): Option<JobResult> {
    match e
    case Save(tid) => if tid in s.threads && s.threads[tid].Saving? then Some(s.threads[tid].result) else None
    case Record(tid) => if tid in s.threads && s.threads[tid].Recording? then Some(s.threads[tid].result) else None
    case _ => None
  }

  // The last result saved under the id since a job of that id was last taken out of the store.
  ghost function LastResult(c: Config, s: Sys, events: seq<Event>, id: Id, was: Option<JobResult>): Option<JobResult>
    requires Run(c, s, events)
    decreases |events|
  {
    if events == [] then was
    else LastResult(c, Next(c, s, events[0]), events[1..], id, ResultAfter(c, s, events[0], id, was))
  }

  ghost function ResultAfter(c: Config, s: Sys, e: Event, id: Id, was: Option<JobResult>): Option<JobResult>
    requires Enabled(c, s, e)
  {
    if Reported(s, e).Some? && Reported(s, e).value.jobId == id then Reported(s, e)
    else if id in s.store.jobs && id !in Next(c, s, e).store.jobs then None
    else was
  }

  ghost predicate HoldsResult(s: Store, id: Id, r: Option<JobResult>) {
    if r.Some? then id in s.results && s.results[id] == r.value else id !in s.results
  }

  // Only the steps that remove a job lose it, its result or its checkpoint.
  lemma OthersLoseNoJob(c: Config, s: Sys, e: Event, id: Id)
    requires Enabled(c, s, e) && !e.Remove? && !e.Sweep? && id in s.store.jobs
    ensures id in Next(c, s, e).store.jobs
  {
  }

  lemma OthersLoseNoResult(c: Config, s: Sys, e: Event)
    requires Enabled(c, s, e) && !e.Remove? && !e.Sweep? && !e.Save? && !e.Record?
    ensures Next(c, s, e).store.results == s.store.results
  {
  }

  lemma OthersLoseNoCheckpoint(c: Config, s: Sys, e: Event)
    requires Enabled(c, s, e) && !e.Remove? && !e.Sweep? && !e.Checkpoint?
    ensures Next(c, s, e).store.checkpoints == s.store.checkpoints
  {
  }

  lemma SavingStepReports(c: Config, s: Sys, e: Event, id: Id, was: Option<JobResult>)
    requires Enabled(c, s, e) && (e.Save? || e.Record?) && HoldsResult(s.store, id, was)
    ensures HoldsResult(Next(c, s, e).store, id, ResultAfter(c, s, e, id, was))
  {
    if id in s.store.jobs {
      OthersLoseNoJob(c, s, e, id);
    }
  }

  lemma RemovingStepReports(c: Config, s: Sys, e: Event, id: Id, was: Option<JobResult>)
    requires Enabled(c, s, e) && (e.Remove? || e.Sweep?) && HoldsResult(s.store, id, was)
    ensures HoldsResult(Next(c, s, e).store, id, ResultAfter(c, s, e, id, was))
  {
  }

  lemma StepReports(c: Config, s: Sys, e: Event, id: Id, was: Option<JobResult>)
    requires Enabled(c, s, e) && HoldsResult(s.store, id, was)
    ensures HoldsResult(Next(c, s, e).store, id, ResultAfter(c, s, e, id, was))
  {
    if e.Save? || e.Record? {
      SavingStepReports(c, s, e, id, was);
    } else if e.Remove? || e.Sweep? {
      RemovingStepReports(c, s, e, id, was);
    } else {
      OthersLoseNoResult(c, s, e);
      if id in s.store.jobs {
        OthersLoseNoJob(c, s, e, id);
      }
    }
  }

  lemma {:induction false} RunReports(c: Config, s: Sys, events: seq<Event>, id: Id, was: Option<JobResult>)
    requires Run(c, s, events) && HoldsResult(s.store, id, was)
    ensures HoldsResult(After(c, s, events).store, id, LastResult(c, s, events, id, was))
    decreases |events|
  {
    if events != [] {
      StepReports(c, s, events[0], id, was);
      RunReports(c, Next(c, s, events[0]), events[1..], id, ResultAfter(c, s, events[0], id, was));
    }
  }

  // In every run the result found under an id is the last one saved for it, and none is found if none was
  // saved since the job was removed.
  lemma LastResultIsFound(c: Config, events: seq<Event>, id: Id)
    requires Run(c, INIT, events)
    ensures GetResult(After(c, INIT, events).store, id) == LastResult(c, INIT, events, id, None)
  {
    RunReports(c, INIT, events, id, None);
  }

  ghost function LastCheckpoint(c: Config, s: Sys, events: seq<Event>, id: Id, was: seq<bv8>): seq<bv8>
    requires Run(c, s, events)
    decreases |events|
  {
    if events == [] then was
    else LastCheckpoint(c, Next(c, s, events[0]), events[1..], id, CheckpointAfter(c, s, events[0], id, was))
  }

  ghost function CheckpointAfter(c: Config, s: Sys, e: Event, id: Id, was: seq<bv8>): seq<bv8>
    requires Enabled(c, s, e)
  {
    if e.Checkpoint? && s.threads[e.tid].id == id then e.data
    else if id in s.store.jobs && id !in Next(c, s, e).store.jobs then []
    else was
  }

  ghost predicate HoldsCheckpoint(s: Store, id: Id, data: seq<bv8>) {
    if id in s.checkpoints then s.checkpoints[id] == data else data == []
  }

  lemma StepCheckpoints(c: Config, s: Sys, e: Event, id: Id, was: seq<bv8>)
    requires Enabled(c, s, e) && HoldsCheckpoint(s.store, id, was)
    ensures HoldsCheckpoint(Next(c, s, e).store, id, CheckpointAfter(c, s, e, id, was))
  {
    if !e.Remove? && !e.Sweep? && id in s.store.jobs {
      OthersLoseNoJob(c, s, e, id);
    }
    if !e.Remove? && !e.Sweep? && !e.Checkpoint? {
      OthersLoseNoCheckpoint(c, s, e);
    }
  }

  lemma {:induction false} RunCheckpoints(c: Config, s: Sys, events: seq<Event>, id: Id, was: seq<bv8>)
    requires Run(c, s, events) && HoldsCheckpoint(s.store, id, was)
    ensures HoldsCheckpoint(After(c, s, events).store, id, LastCheckpoint(c, s, events, id, was))
    decreases |events|
  {
    if events != [] {
      StepCheckpoints(c, s, events[0], id, was);
      RunCheckpoints(c, Next(c, s, events[0]), events[1..], id, CheckpointAfter(c, s, events[0], id, was));
    }
  }

  // So a handler that runs again reads what the last execution of the job has saved.
  lemma LastCheckpointIsFound(c: Config, events: seq<Event>, id: Id)
    requires Run(c, INIT, events)
    ensures GetCheckpoint(After(c, INIT, events).store, id) == LastCheckpoint(c, INIT, events, id, [])
  {
    RunCheckpoints(c, INIT, events, id, []);
  }

  // ----- The channels -----

  // What a step puts into the scheduler's channel, and what it takes out of the pool's.
  function Sent(c: Config, s: Sys, e: Event): seq<Job> {
    if e.SchedPush? && s.sched != [] && |s.jobCh| < c.batchSize then [s.sched[0]] else []
  }

  function Taken(s: Sys, e: Event): seq<Job> {
    if e.Receive? && s.poolCh != [] then [s.poolCh[0]] else []
  }

  // What the schedule loop has pushed and what the workers have received since the last crash.
  ghost function PushedIn(c: Config, s: Sys, events: seq<Event>, was: seq<Job>): seq<Job>
    requires Run(c, s, events)
    decreases |events|
  {
    if events == [] then was
    else PushedIn(c, Next(c, s, events[0]), events[1..], if events[0].Crash? then [] else was + Sent(c, s, events[0]))
  }

  ghost function ReceivedIn(c: Config, s: Sys, events: seq<Event>, was: seq<Job>): seq<Job>
    requires Run(c, s, events)
    decreases |events|
  {
    if events == [] then was
    else ReceivedIn(c, Next(c, s, events[0]), events[1..], if events[0].Crash? then [] else was + Taken(s, events[0]))
  }

  // The entries on their way, the oldest first.
  function OnTheWay(s: Sys): seq<Job> {
    s.poolCh + (if s.fetched.Some? then [s.fetched.value] else []) + s.jobCh
  }

  lemma TakeStep(c: Config, s: Sys, e: Event)
    requires Enabled(c, s, e) && (e.Receive? || e.Fetch?)
    ensures Taken(s, e) + OnTheWay(Next(c, s, e)) == OnTheWay(s) + Sent(c, s, e)
  {
    if e.Receive? {
      assert s.poolCh == [s.poolCh[0]] + s.poolCh[1..];
    } else {
      assert s.jobCh == [s.jobCh[0]] + s.jobCh[1..];
    }
  }

  lemma PutStep(c: Config, s: Sys, e: Event)
    requires Enabled(c, s, e) && (e.Forward? || e.SchedPush?)
    ensures Taken(s, e) + OnTheWay(Next(c, s, e)) == OnTheWay(s) + Sent(c, s, e)
  {
  }

  lemma OtherStep(c: Config, s: Sys, e: Event)
    requires Enabled(c, s, e) && !e.Crash? && !(e.Receive? || e.Fetch? || e.Forward? || e.SchedPush?)
    ensures Next(c, s, e).poolCh == s.poolCh && Next(c, s, e).fetched == s.fetched && Next(c, s, e).jobCh == s.jobCh
  {
  }

  lemma StepMovesEntries(c: Config, s: Sys, e: Event, pushed: seq<Job>, received: seq<Job>)
    requires Enabled(c, s, e) && pushed == received + OnTheWay(s)
    ensures (if e.Crash? then [] else pushed + Sent(c, s, e))
            == (if e.Crash? then [] else received + Taken(s, e)) + OnTheWay(Next(c, s, e))
  {
    if e.Receive? || e.Fetch? || e.Forward? || e.SchedPush? {
      if e.Receive? || e.Fetch? {
        TakeStep(c, s, e);
      } else {
        PutStep(c, s, e);
      }
      Regrouped(received, OnTheWay(s), Sent(c, s, e), Taken(s, e), OnTheWay(Next(c, s, e)));
    } else if !e.Crash? {
      OtherStep(c, s, e);
      assert pushed + [] == pushed && received + [] == received;
    }
  }

  lemma Regrouped<T>(a: seq<T>, b: seq<T>, c: seq<T>, d: seq<T>, e: seq<T>)
    requires d + e == b + c
    ensures a + b + c == a + d + e
  {
    assert a + b + c == a + (b + c) && a + d + e == a + (d + e);
  }

  lemma {:induction false} RunMovesEntries(c: Config, s: Sys, events: seq<Event>, pushed: seq<Job>, received: seq<Job>)
    requires Run(c, s, events) && pushed == received + OnTheWay(s)
    ensures PushedIn(c, s, events, pushed) == ReceivedIn(c, s, events, received) + OnTheWay(After(c, s, events))
    decreases |events|
  {
    if events != [] {
      var e := events[0];
      StepMovesEntries(c, s, e, pushed, received);
      RunMovesEntries(c, Next(c, s, e), events[1..], if e.Crash? then [] else pushed + Sent(c, s, e),
                      if e.Crash? then [] else received + Taken(s, e));
    }
  }

  // In every run the workers receive the entries in the order in which the schedule loop pushed them, and none
  // is lost or invented between two crashes.
  lemma FirstPushedFirstReceived(c: Config, events: seq<Event>)
    requires Run(c, INIT, events)
    ensures PushedIn(c, INIT, events, []) == ReceivedIn(c, INIT, events, []) + OnTheWay(After(c, INIT, events))
  {
    RunMovesEntries(c, INIT, events, [], []);
  }
}
