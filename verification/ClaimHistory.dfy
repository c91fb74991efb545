// What has been claimed at least once, how many executions are alive at a time, and what follows for
// jobs that wait for a retry.
module ClaimHistory {
  import opened Core
  import opened JobStore
  import opened Protocol
  import ClaimBudget
  import Lifecycle
  import ProtocolClaims

  // The workers that run the job's handler.
  function Executors(threads: map<Tid, Thread>, id: Id): set<Tid> {
    set tid | tid in threads && threads[tid] == Executing(id)
  }

  // A job in one of these states has been claimed before.
  predicate Begun(state: JobState) {
    state == Running || state == Retrying || state == Completed || state == Failed || state == DeadLetter
  }

  // So has the job of a call that reports, and of one that retries.
  predicate FollowsAClaim(s: Sys, th: Thread) {
    match th
    case Saving(_, snap, _) => snap.id in s.claims
    case Writing(call, snap, _) => call.Cancel? || snap.id in s.claims
    case _ => true
  }

  ghost predicate JobsFollow(s: Sys) {
    && KeyedById(s.store)
    && forall id :: id in s.store.jobs && Begun(s.store.jobs[id].state) ==> id in s.claims
  }

  ghost predicate Inv(s: Sys) {
    && JobsFollow(s)
    && (forall tid :: tid in s.threads ==> FollowsAClaim(s, s.threads[tid]))
    && (forall j :: j in s.recov ==> j.id in s.claims)
    && (forall id :: |Executors(s.threads, id)| <= s.claims[id])
  }

  // ----- Executions -----

  lemma ExecutorsAfter(threads: map<Tid, Thread>, tid: Tid, th: Thread, id: Id)
    ensures |Executors(threads - {tid}, id)| <= |Executors(threads, id)|
    ensures |Executors(threads[tid := th], id)| <= |Executors(threads, id)| + One(th == Executing(id))
  {
    SubsetCount(Executors(threads - {tid}, id), Executors(threads, id));
    var more := Executors(threads, id) + if th == Executing(id) then {tid} else {};
    SubsetCount(Executors(threads[tid := th], id), more);
  }

  // A step of one thread that claims nothing.
  lemma ThreadsKeep(s: Sys, w: Sys, tid: Tid)
    requires forall id :: |Executors(s.threads, id)| <= s.claims[id]
    requires w.claims == s.claims
    requires w.threads == s.threads || w.threads == s.threads - {tid}
             || (tid in w.threads && !w.threads[tid].Executing? && w.threads == s.threads[tid := w.threads[tid]])
    ensures forall id :: |Executors(w.threads, id)| <= w.claims[id]
  {
    forall id ensures |Executors(w.threads, id)| <= w.claims[id] {
      ExecutorsAfter(s.threads, tid, if tid in w.threads then w.threads[tid] else Executing(id), id);
    }
  }

  lemma ClaimedFollows(s: Sys, id: Id, worker: string)
    requires JobsFollow(s)
    ensures var (st, claimed, _) := ClaimJob(s.store, id, worker, s.now);
            JobsFollow(s.(store := st, claims := if claimed then s.claims + multiset{id} else s.claims))
  {
  }

  lemma ClaimKeeps(c: Config, s: Sys, tid: Tid)
    requires Inv(s) && tid in s.threads && s.threads[tid].Holding?
    ensures Inv(Claimed(c, s, tid, s.threads[tid].entry.id))
  {
    var w := Claimed(c, s, tid, s.threads[tid].entry.id);
    ClaimedFollows(s, s.threads[tid].entry.id, c.workerId);
    forall id ensures |Executors(w.threads, id)| <= w.claims[id] {
      ExecutorsAfter(s.threads, tid, Executing(s.threads[tid].entry.id), id);
    }
  }

  lemma ExecutionIsClaimed(s: Sys, tid: Tid, id: Id)
    requires Inv(s) && tid in s.threads && s.threads[tid] == Executing(id)
    ensures id in s.claims
  {
    assert tid in Executors(s.threads, id);
    SubsetCount({tid}, Executors(s.threads, id));
  }

  // ----- Every step -----

  lemma ThreadStepKeeps(c: Config, s: Sys, e: Event)
    requires Inv(s) && Enabled(c, s, e)
    requires e.Receive? || e.Checkpoint? || e.Ask? || e.Save? || e.Record?
    ensures Inv(Next(c, s, e))
  {
    ThreadsKeep(s, Next(c, s, e), e.tid);
  }

  lemma FinishKeeps(c: Config, s: Sys, e: Event)
    requires Inv(s) && Enabled(c, s, e) && e.Finish?
    ensures Inv(Next(c, s, e))
  {
    ExecutionIsClaimed(s, e.tid, e.result.jobId);
    ThreadsKeep(s, Next(c, s, e), e.tid);
  }

  lemma WrittenFollows(s: Sys, th: Thread, t: Time, delay: Duration, now: Time)
    requires JobsFollow(s) && th.Writing? && FollowsAClaim(s, th)
    ensures JobsFollow(s.(store := Update(s.store, Edited(th.call, th.snap, t, delay), now).0))
  {
    var job := Edited(th.call, th.snap, t, delay);
    assert job.id == th.snap.id && (th.call.Cancel? ==> job.state == Cancelled);
  }

  lemma WriteKeeps(c: Config, s: Sys, e: Event)
    requires Inv(s) && Enabled(c, s, e) && e.Write?
    ensures Inv(Next(c, s, e))
  {
    WrittenFollows(s, s.threads[e.tid], e.t, e.delay, s.now);
    ThreadsKeep(s, Next(c, s, e), e.tid);
  }

  lemma LoopStepKeeps(c: Config, s: Sys, e: Event)
    requires Inv(s) && Enabled(c, s, e)
    requires e.SchedRead? || e.SchedPush? || e.DelayedRead? || e.Fetch? || e.Forward? || e.Tick?
    ensures Inv(Next(c, s, e))
  {
    var w := Next(c, s, e);
    assert w.store == s.store && w.threads == s.threads && w.recov == s.recov && w.claims == s.claims;
  }

  lemma MarkStepKeeps(c: Config, s: Sys, e: Event)
    requires Inv(s) && Enabled(c, s, e) && (e.SchedMark? || e.DelayedMark?)
    ensures Inv(Next(c, s, e))
  {
    var w := Next(c, s, e);
    assert w.threads == s.threads && w.recov == s.recov && w.claims == s.claims;
    MarkFollows(s, if e.SchedMark? then s.sched[0].id else s.delayed[0].id);
  }

  lemma MarkFollows(s: Sys, id: Id)
    requires JobsFollow(s)
    ensures JobsFollow(s.(store := UpdateState(s.store, id, Scheduled, s.now).0))
  {
  }

  lemma RecoverReadKeeps(c: Config, s: Sys, e: Event)
    requires Inv(s) && Enabled(c, s, e) && e.RecoverRead?
    ensures Inv(Next(c, s, e))
  {
    forall j | j in e.batch ensures j.id in s.claims {
      assert j.id in StuckIds(s.store.jobs, e.asOf - c.visibility);
    }
    var w := Next(c, s, e);
    assert w.store == s.store && w.threads == s.threads && w.claims == s.claims;
  }

  lemma RecoverWriteKeeps(c: Config, s: Sys, e: Event)
    requires Inv(s) && Enabled(c, s, e) && e.RecoverWrite?
    ensures Inv(Next(c, s, e))
  {
    var w := Next(c, s, e);
    assert w.threads == s.threads && w.claims == s.claims;
    RecoveredFollows(s, Lifecycle.Recover(s.recov[0], e.t));
  }

  lemma RecoveredFollows(s: Sys, job: Job)
    requires JobsFollow(s) && job.id in s.claims
    ensures JobsFollow(s.(store := Update(s.store, job, s.now).0))
  {
  }

  lemma CrashKeeps(c: Config, s: Sys, e: Event)
    requires Inv(s) && Enabled(c, s, e) && e.Crash?
    ensures Inv(Next(c, s, e))
  {
    assert forall id :: Executors(map[], id) == {};
  }

  lemma SubmitKeeps(c: Config, s: Sys, e: Event)
    requires Inv(s) && Enabled(c, s, e) && e.Submit?
    ensures Inv(Next(c, s, e))
  {
    var w := Next(c, s, e);
    assert w.threads == s.threads && w.recov == s.recov && w.claims == s.claims;
    CreatedFollows(s, e.job);
  }

  lemma CreatedFollows(s: Sys, job: Job)
    requires JobsFollow(s) && Untouched(job)
    ensures JobsFollow(s.(store := Create(s.store, job).0))
  {
  }

  lemma RemoveKeeps(s: Sys, ids: set<Id>, w: Sys)
    requires Inv(s)
    requires w == s.(store := JobStore.Remove(s.store, ids), deleted := w.deleted, swept := w.swept)
    ensures Inv(w)
  {
    assert w.threads == s.threads && w.recov == s.recov && w.claims == s.claims;
  }

  lemma ClaimsGrow(c: Config, s: Sys, e: Event)
    requires Enabled(c, s, e)
    ensures forall id :: s.claims[id] <= Next(c, s, e).claims[id]
  {
  }

  lemma StepKeeps(c: Config, s: Sys, e: Event)
    requires Inv(s) && Enabled(c, s, e)
    ensures Inv(Next(c, s, e))
    ensures forall id :: s.claims[id] <= Next(c, s, e).claims[id]
  {
    ClaimsGrow(c, s, e);
    match e {
      case ClaimEntry(tid) => ClaimKeeps(c, s, tid);
      case Write(_, _, _) => WriteKeeps(c, s, e);
      case RecoverRead(_, _) => RecoverReadKeeps(c, s, e);
      case RecoverWrite(_) => RecoverWriteKeeps(c, s, e);
      case Crash => CrashKeeps(c, s, e);
      case Remove(id) => if id in s.store.jobs { RemoveKeeps(s, {id}, Next(c, s, e)); }
      case Sweep(cutoff) => RemoveKeeps(s, ExpiredIds(s.store.jobs, cutoff), Next(c, s, e));
      case Submit(_) => SubmitKeeps(c, s, e);
      case Finish(_, _) => FinishKeeps(c, s, e);
      case Receive(_) | Checkpoint(_, _) | Ask(_, _, _) | Save(_) | Record(_) => ThreadStepKeeps(c, s, e);
      case SchedMark | DelayedMark => MarkStepKeeps(c, s, e);
      case _ => LoopStepKeeps(c, s, e);
    }
  }

  lemma {:induction false} RunKeeps(c: Config, s: Sys, events: seq<Event>)
    requires Inv(s) && Run(c, s, events)
    ensures Inv(After(c, s, events))
    ensures forall id :: s.claims[id] <= After(c, s, events).claims[id]
    decreases |events|
  {
    if events != [] {
      StepKeeps(c, s, events[0]);
      RunKeeps(c, Next(c, s, events[0]), events[1..]);
    }
  }

  lemma InitInv()
    ensures Inv(INIT)
  {
    assert forall id :: Executors(map[], id) == {};
  }

  // ----- The results -----

  // At no moment of any run, late writes and crashes included, are more workers executing a job than
  // one plus its retries plus those that found an entry in hand: without Retry never two.
  lemma LiveWorkersAreBounded(c: Config, events: seq<Event>, id: Id)
    requires Run(c, INIT, events)
    ensures var s, hinted := After(c, INIT, events), ProtocolClaims.HintedRetries(c, INIT, events);
            |Executors(s.threads, id)| <= 1 + s.retries[id] + hinted[id]
  {
    InitInv();
    RunKeeps(c, INIT, events);
    ProtocolClaims.ClaimsAreBounded(c, events, id);
  }

  // A job has been claimed before it is ever Running, Retrying, Completed, Failed or DeadLetter.
  lemma BegunJobsWereClaimed(c: Config, events: seq<Event>, id: Id)
    requires Run(c, INIT, events)
    requires var s := After(c, INIT, events); id in s.store.jobs && Begun(s.store.jobs[id].state)
    ensures After(c, INIT, events).claims[id] >= 1
  {
    InitInv();
    RunKeeps(c, INIT, events);
  }

  // In a run that never writes a Retry to it, before or after, a job that waits for a retry is not run again,
  // nor made claimable: the claim it has had stays its only one.
  lemma RetryingJobsWaitForRetry(c: Config, before: seq<Event>, later: seq<Event>, id: Id)
    requires Run(c, INIT, before)
    requires var s := After(c, INIT, before);
             && id in s.store.jobs && s.store.jobs[id].state == Retrying
             && Run(c, s, later) && After(c, s, later).retries[id] == 0
    ensures var s := After(c, INIT, before);
            var end := After(c, s, later);
            && s.claims[id] == end.claims[id] == 1
            && !Claimable(end.store.jobs, id)
  {
    var s := After(c, INIT, before);
    var end := After(c, s, later);
    InitInv();
    RunKeeps(c, INIT, before);
    RunKeeps(c, s, later);
    var h := ReachedBudget(c, before, later);
    OneClaimOnly(end, h, id);
  }

  lemma ReachedBudget(c: Config, before: seq<Event>, later: seq<Event>) returns (h: multiset<Id>)
    requires Run(c, INIT, before) && Run(c, After(c, INIT, before), later)
    ensures ProtocolClaims.Inv(After(c, After(c, INIT, before), later), h)
  {
    var s := After(c, INIT, before);
    ProtocolClaims.InitInv();
    ProtocolClaims.RunKeeps(c, INIT, before, multiset{});
    h := multiset{} + ProtocolClaims.HintedRetries(c, INIT, before);
    ProtocolClaims.RunKeeps(c, s, later, h);
    h := h + ProtocolClaims.HintedRetries(c, s, later);
  }

  lemma OneClaimOnly(s: Sys, h: multiset<Id>, id: Id)
    requires ProtocolClaims.Inv(s, h) && s.claims[id] >= 1 && s.retries[id] == 0
    ensures s.claims[id] == 1 && !Claimable(s.store.jobs, id)
  {
    assert id in s.claims;
    assert ClaimBudget.Within(ProtocolClaims.ViewOf(s, h), id);
  }
}
