// The store calls that a run of the protocol makes, and that it makes no others: so the memory store
// can stand in for the Bolt store under it.
module ProtocolCalls {
  import opened Core
  import opened JobStore
  import opened Protocol
  import Lifecycle
  import MemoryStore
  import ProtocolRecords
  import Agreement = StoreAgreement

  // The store call of a step, if it makes one.
  function CallOf(c: Config, s: Sys, e: Event): Option<Agreement.Call> {
    match e
    case Submit(job) => Some(Agreement.Create(job))
    case SchedRead(_) => Some(Agreement.GetPending(c.batchSize))
    case SchedMark => if s.sched == [] then None else Some(Agreement.SetScheduled(s.sched[0].id, s.now))
    case DelayedRead(_, asOf) => Some(Agreement.GetDelayed(asOf, c.batchSize))
    case DelayedMark => if s.delayed == [] then None else Some(Agreement.SetScheduled(s.delayed[0].id, s.now))
    case ClaimEntry(tid) =>
      if tid in s.threads && s.threads[tid].Holding? then
        Some(Agreement.ClaimJob(s.threads[tid].entry.id, c.workerId, s.now))
      else None
    case Checkpoint(tid, data) =>
      if tid in s.threads && s.threads[tid].Executing? then Some(Agreement.SaveCheckpoint(s.threads[tid].id, data))
      else None
    case Finish(_, result) => Some(Agreement.Get(result.jobId))
    case Ask(_, id, _) => Some(Agreement.Get(id))
    case Save(tid) =>
      if tid in s.threads && s.threads[tid].Saving? then Some(Agreement.SaveResult(s.threads[tid].result)) else None
    case Write(tid, t, delay) =>
      if tid in s.threads && s.threads[tid].Writing? then
        Some(Agreement.Update(Edited(s.threads[tid].call, s.threads[tid].snap, t, delay), s.now))
      else None
    case Record(tid) =>
      if tid in s.threads && s.threads[tid].Recording? then Some(Agreement.SaveResult(s.threads[tid].result)) else None
    case RecoverRead(_, asOf) => Some(Agreement.GetStuck(asOf - c.visibility))
    case RecoverWrite(t) => if s.recov == [] then None else Some(Agreement.Update(Lifecycle.Recover(s.recov[0], t), s.now))
    case Remove(id) => Some(Agreement.Delete(id))
    case Sweep(cutoff) => Some(Agreement.Cleanup(cutoff))
    case _ => None
  }

  // The calls of a run that begins with `e`.
  ghost function Prefixed(c: Config, s: Sys, e: Event, rest: seq<Agreement.Call>): seq<Agreement.Call> {
    match CallOf(c, s, e) case None => rest case Some(call) => [call] + rest
  }

  ghost function CallsOf(c: Config, s: Sys, events: seq<Event>): seq<Agreement.Call>
    requires Run(c, s, events)
    decreases |events|
  {
    if events == [] then []
    else Prefixed(c, s, events[0], CallsOf(c, Next(c, s, events[0]), events[1..]))
  }

  // No Cleanup of the run meets a Cancelled job that is old enough: the one case in which the stores differ.
  ghost predicate NoOldCancelled(c: Config, s: Sys, events: seq<Event>)
    requires Run(c, s, events)
    decreases |events|
  {
    events == [] ||
    (SparesCancelled(s, events[0]) && NoOldCancelled(c, Next(c, s, events[0]), events[1..]))
  }

  predicate SparesCancelled(s: Sys, e: Event) {
    e.Sweep? ==> forall id :: id in s.store.jobs && s.store.jobs[id].state == Cancelled ==> e.cutoff <= s.store.jobs[id].completedAt
  }

  // ----- One step -----

  // The call says how the step changes the store and the created ids.
  ghost predicate IsItsCall(c: Config, s: Sys, e: Event)
    requires Enabled(c, s, e)
  {
    var w := Next(c, s, e);
    match CallOf(c, s, e)
    case None => w.store == s.store && w.created.Keys == s.created.Keys
    case Some(call) =>
      && w.store == Agreement.BoltCall(s.store, call).0
      && w.created.Keys == Agreement.CreatedAfter(s.store, call, s.created.Keys)
  }

  lemma LoopIsItsCall(c: Config, s: Sys, e: Event)
    requires Enabled(c, s, e) && (e.SchedMark? || e.DelayedMark? || e.RecoverWrite?)
    ensures IsItsCall(c, s, e)
  {
  }

  lemma ReadIsItsCall(c: Config, s: Sys, e: Event)
    requires Enabled(c, s, e) && (e.SchedRead? || e.DelayedRead? || e.RecoverRead?)
    ensures IsItsCall(c, s, e)
  {
  }

  lemma LookupIsItsCall(c: Config, s: Sys, e: Event)
    requires Enabled(c, s, e) && (e.Finish? || e.Ask?)
    ensures IsItsCall(c, s, e)
  {
  }

  lemma ClaimIsItsCall(c: Config, s: Sys, e: Event)
    requires Enabled(c, s, e) && (e.ClaimEntry? || e.Write?)
    ensures IsItsCall(c, s, e)
  {
  }

  lemma ThreadIsItsCall(c: Config, s: Sys, e: Event)
    requires Enabled(c, s, e) && (e.Checkpoint? || e.Save? || e.Record?)
    ensures IsItsCall(c, s, e)
  {
  }

  lemma SubmitIsItsCall(c: Config, s: Sys, e: Event)
    requires Enabled(c, s, e) && e.Submit?
    ensures IsItsCall(c, s, e)
  {
  }

  lemma StepIsItsCall(c: Config, s: Sys, e: Event)
    requires Enabled(c, s, e)
    ensures IsItsCall(c, s, e)
  {
    match e {
      case Submit(_) => SubmitIsItsCall(c, s, e);
      case SchedMark | DelayedMark | RecoverWrite(_) => LoopIsItsCall(c, s, e);
      case SchedRead(_) | DelayedRead(_, _) | RecoverRead(_, _) => ReadIsItsCall(c, s, e);
      case Finish(_, _) | Ask(_, _, _) => LookupIsItsCall(c, s, e);
      case ClaimEntry(_) | Write(_, _, _) => ClaimIsItsCall(c, s, e);
      case Checkpoint(_, _) | Save(_) | Record(_) => ThreadIsItsCall(c, s, e);
      case _ =>
    }
  }

  lemma WrittenIsNotRunning(call: Call, snap: Job, t: Time, delay: Duration)
    ensures Edited(call, snap, t, delay).state != Running
  {
  }

  lemma SweepIsAlike(s: Sys, cutoff: Time)
    requires ProtocolRecords.Inv(s) && SparesCancelled(s, Sweep(cutoff))
    ensures MemoryStore.SweepsAlike(s.store.jobs, cutoff)
  {
    forall id | id in s.store.jobs && s.store.jobs[id].completedAt < cutoff
      ensures s.store.jobs[id].state != Cancelled
      ensures s.store.jobs[id].state == Completed || s.store.jobs[id].state == Failed ==>
                s.store.jobs[id].completedAt != ZERO_TIME
    {
      assert ProtocolRecords.GoodJob(s, id);
    }
  }

  lemma StepIssues(c: Config, s: Sys, e: Event)
    requires ProtocolRecords.Inv(s) && Enabled(c, s, e) && SparesCancelled(s, e)
    ensures CallOf(c, s, e).Some? ==> Agreement.Issued(s.store, CallOf(c, s, e).value, s.created.Keys)
  {
    match e {
      case Write(tid, t, delay) => WriteIssues(c, s, e);
      case Sweep(cutoff) => SweepIsAlike(s, cutoff);
      case _ =>
    }
  }

  lemma WriteIssues(c: Config, s: Sys, e: Event)
    requires Enabled(c, s, e) && e.Write?
    ensures CallOf(c, s, e).Some? ==> Agreement.Issued(s.store, CallOf(c, s, e).value, s.created.Keys)
  {
    WrittenIsNotRunning(s.threads[e.tid].call, s.threads[e.tid].snap, e.t, e.delay);
  }

  // ----- Whole runs -----

  lemma {:induction false} RunIssues(c: Config, s: Sys, events: seq<Event>)
    requires ProtocolRecords.Inv(s) && Run(c, s, events) && NoOldCancelled(c, s, events)
    ensures Agreement.AllIssued(s.store, CallsOf(c, s, events), s.created.Keys)
    ensures Agreement.BoltRun(s.store, CallsOf(c, s, events)).0 == After(c, s, events).store
    decreases |events|
  {
    if events != [] {
      var next := Next(c, s, events[0]);
      StepIssues(c, s, events[0]);
      StepIsItsCall(c, s, events[0]);
      ProtocolRecords.StepKeeps(c, s, events[0]);
      RunIssues(c, next, events[1..]);
      var rest := CallsOf(c, next, events[1..]);
      if CallOf(c, s, events[0]).Some? {
        FirstCall(s.store, CallOf(c, s, events[0]).value, rest, s.created.Keys);
      }
    }
  }

  lemma FirstCall(s: Store, call: Agreement.Call, rest: seq<Agreement.Call>, created: set<Id>)
    requires Agreement.Issued(s, call, created)
    requires Agreement.AllIssued(Agreement.BoltCall(s, call).0, rest, Agreement.CreatedAfter(s, call, created))
    ensures Agreement.AllIssued(s, [call] + rest, created)
    ensures Agreement.BoltRun(s, [call] + rest).0 == Agreement.BoltRun(Agreement.BoltCall(s, call).0, rest).0
  {
    assert ([call] + rest)[1..] == rest;
  }

  // ----- And where a cleanup does meet one -----

  lemma InvIsReachable(s: Sys)
    requires ProtocolRecords.Inv(s)
    ensures Agreement.Reachable(s.store, s.created.Keys)
  {
    forall id | id in s.store.jobs
      ensures id in s.created && (s.store.jobs[id].state == Running ==> s.store.jobs[id].startedAt != ZERO_TIME)
    {
      assert ProtocolRecords.GoodJob(s, id);
    }
  }

  // The Bolt store sweeps all that the memory store does, and the old Cancelled job as well.
  lemma SweepShows(s: Sys, cutoff: Time)
    requires ProtocolRecords.Inv(s) && !SparesCancelled(s, Sweep(cutoff))
    ensures MemoryStore.CleanupEnded(s.store, cutoff).1 < JobStore.Cleanup(s.store, cutoff).1
  {
    var ended, expired := MemoryStore.EndedBeforeIds(s.store.jobs, cutoff), ExpiredIds(s.store.jobs, cutoff);
    forall id | id in s.store.jobs
      ensures s.store.jobs[id].IsTerminal() ==> s.store.jobs[id].completedAt != ZERO_TIME
    {
      assert ProtocolRecords.GoodJob(s, id);
    }
    var id :| id in s.store.jobs && s.store.jobs[id].state == Cancelled && s.store.jobs[id].completedAt < cutoff;
    assert id in expired && id !in ended && ended <= expired;
    SubsetCount(ended, expired);
  }

  lemma FirstAnswerDiffers(s: Store, call: Agreement.Call, rest: seq<Agreement.Call>)
    requires Agreement.MemoryCall(s, call).1 != Agreement.BoltCall(s, call).1
    ensures Agreement.MemoryRun(s, [call] + rest) != Agreement.BoltRun(s, [call] + rest)
  {
    assert Agreement.MemoryRun(s, [call] + rest).1[0] == Agreement.MemoryCall(s, call).1;
    assert Agreement.BoltRun(s, [call] + rest).1[0] == Agreement.BoltCall(s, call).1;
  }

  lemma LaterAnswerDiffers(s: Store, call: Agreement.Call, rest: seq<Agreement.Call>)
    requires Agreement.MemoryCall(s, call) == Agreement.BoltCall(s, call)
    requires var mid := Agreement.BoltCall(s, call).0; Agreement.MemoryRun(mid, rest) != Agreement.BoltRun(mid, rest)
    ensures Agreement.MemoryRun(s, [call] + rest) != Agreement.BoltRun(s, [call] + rest)
  {
    assert ([call] + rest)[1..] == rest;
    var mid, a := Agreement.BoltCall(s, call).0, Agreement.BoltCall(s, call).1;
    PrependedApart(a, Agreement.MemoryRun(mid, rest).1, Agreement.BoltRun(mid, rest).1);
  }

  lemma PrependedApart<T>(a: T, xs: seq<T>, ys: seq<T>)
    ensures [a] + xs == [a] + ys ==> xs == ys
  {
    assert ([a] + xs)[1..] == xs && ([a] + ys)[1..] == ys;
  }

  lemma StepDiffers(c: Config, s: Sys, e: Event, rest: seq<Agreement.Call>)
    requires ProtocolRecords.Inv(s) && Enabled(c, s, e) && SparesCancelled(s, e)
    requires var next := Next(c, s, e).store; Agreement.MemoryRun(next, rest) != Agreement.BoltRun(next, rest)
    ensures Agreement.MemoryRun(s.store, Prefixed(c, s, e, rest)) != Agreement.BoltRun(s.store, Prefixed(c, s, e, rest))
  {
    StepIssues(c, s, e);
    StepIsItsCall(c, s, e);
    InvIsReachable(s);
    if CallOf(c, s, e).Some? {
      var call := CallOf(c, s, e).value;
      Agreement.CallAgrees(s.store, call, s.created.Keys);
      LaterAnswerDiffers(s.store, call, rest);
    }
  }

  lemma SweepDiffers(s: Sys, cutoff: Time, rest: seq<Agreement.Call>)
    requires ProtocolRecords.Inv(s) && !SparesCancelled(s, Sweep(cutoff))
    ensures var calls := [Agreement.Cleanup(cutoff)] + rest;
            Agreement.MemoryRun(s.store, calls) != Agreement.BoltRun(s.store, calls)
  {
    SweepShows(s, cutoff);
    OtherNumber(s.store, cutoff);
    FirstAnswerDiffers(s.store, Agreement.Cleanup(cutoff), rest);
  }

  lemma OtherNumber(s: Store, cutoff: Time)
    requires MemoryStore.CleanupEnded(s, cutoff).1 < JobStore.Cleanup(s, cutoff).1
    ensures Agreement.MemoryCall(s, Agreement.Cleanup(cutoff)).1 != Agreement.BoltCall(s, Agreement.Cleanup(cutoff)).1
  {
  }

  lemma {:induction false} AnswersDiffer(c: Config, s: Sys, events: seq<Event>)
    requires ProtocolRecords.Inv(s) && Run(c, s, events) && !NoOldCancelled(c, s, events)
    ensures Agreement.MemoryRun(s.store, CallsOf(c, s, events)) != Agreement.BoltRun(s.store, CallsOf(c, s, events))
    decreases |events|
  {
    var next := Next(c, s, events[0]);
    var rest := CallsOf(c, next, events[1..]);
    assert CallsOf(c, s, events) == Prefixed(c, s, events[0], rest);
    if SparesCancelled(s, events[0]) {
      ProtocolRecords.StepKeeps(c, s, events[0]);
      AnswersDiffer(c, next, events[1..]);
      StepDiffers(c, s, events[0], rest);
    } else {
      SweepDiffers(s, events[0].cutoff, rest);
    }
  }

  // Under a run of the protocol a memory store gives each call the answer that the Bolt store gives, and
  // ends with the contents the run ends with, if and only if no cleanup of the run meets an old
  // Cancelled job.
  lemma MemoryStandsIn(c: Config, events: seq<Event>)
    requires Run(c, INIT, events)
    ensures var calls := CallsOf(c, INIT, events);
            && (Agreement.MemoryRun(EMPTY, calls) == Agreement.BoltRun(EMPTY, calls) <==> NoOldCancelled(c, INIT, events))
            && (NoOldCancelled(c, INIT, events) ==>
                  && Agreement.AllIssued(EMPTY, calls, {})
                  && Agreement.MemoryRun(EMPTY, calls).0 == After(c, INIT, events).store)
  {
    if NoOldCancelled(c, INIT, events) {
      RunIssues(c, INIT, events);
      assert INIT.created.Keys == {};
      Agreement.StoresAgree(EMPTY, CallsOf(c, INIT, events), {});
    } else {
      AnswersDiffer(c, INIT, events);
    }
  }
}
