// What every step of the protocol keeps of the stored records, the idempotency index and the number
// of jobs, stale full-record writes included.
module ProtocolRecords {
  import opened Core
  import opened JobStore
  import opened Protocol
  import Lifecycle

  // A record read at `since` by a call still in flight.
  ghost predicate GoodSnap(s: Sys, j: Job, since: Time) {
    && j.id in s.created && s.created[j.id] == j.idempotencyKey
    && 0 <= j.attempt && ZERO_TIME <= j.startedAt <= since
    && ZERO_TIME < since <= s.now
  }

  ghost predicate GoodThread(s: Sys, th: Thread) {
    match th
    case Saving(_, snap, since) => GoodSnap(s, snap, since)
    case Writing(call, snap, since) => GoodSnap(s, snap, since)
    case _ => true
  }

  ghost predicate GoodJob(s: Sys, id: Id) {
    && id in s.store.jobs && id in s.created && s.created[id] == s.store.jobs[id].idempotencyKey
    && Lifecycle.Consistent(s.store.jobs[id], s.now)
  }

  ghost predicate Inv(s: Sys)
  {
    && ZERO_TIME < s.now && ZERO_TIME < s.recovSince <= s.now
    && WellFormed(s.store)
    && (forall id :: id in s.store.jobs ==> GoodJob(s, id))
    && (forall tid :: tid in s.threads ==> GoodThread(s, s.threads[tid]))
    && (forall j :: j in s.recov ==> GoodSnap(s, j, s.recovSince))
    && |s.store.jobs| + s.deleted + s.swept == |s.created|
  }

  lemma EditedRecord(call: Call, snap: Job, since: Time, t: Time, delay: Duration, now: Time)
    requires 0 <= snap.attempt && ZERO_TIME <= snap.startedAt <= since && ZERO_TIME < since <= t <= now
    ensures var j := Edited(call, snap, t, delay);
            && Lifecycle.Consistent(j, now) && Lifecycle.SameIdentity(snap, j)
            && (j.state == Pending <==> call.Retry?)
            && (!call.Retry? ==> j.state.IsTerminal() || j.state == Retrying)
  {
  }

  lemma SnapsStayGood(s: Sys, s': Sys)
    requires Inv(s) && s' == s.(store := s'.store)
    ensures forall tid :: tid in s'.threads ==> GoodThread(s', s'.threads[tid])
    ensures forall j :: j in s'.recov ==> GoodSnap(s', j, s'.recovSince)
  {
    forall tid | tid in s'.threads ensures GoodThread(s', s'.threads[tid]) {
      assert GoodThread(s, s.threads[tid]);
    }
    forall j | j in s'.recov ensures GoodSnap(s', j, s'.recovSince) {
      assert GoodSnap(s, j, s.recovSince);
    }
  }

  // Writing one consistent record of a known job over the stored one.
  lemma WriteKeeps(s: Sys, job: Job, s': Sys)
    requires Inv(s)
    requires job.id in s.created && s.created[job.id] == job.idempotencyKey && Lifecycle.Consistent(job, s.now)
    requires s' == s.(store := Update(s.store, job, s.now).0)
    ensures Inv(s')
  {
    if job.id in s.store.jobs {
      assert WellFormed(s'.store) by {
        assert GoodJob(s, job.id);
        UpdateKeepsIndex(s.store, job, s.now);
      }
      assert |s'.store.jobs| == |s.store.jobs| by {
        assert s'.store.jobs.Keys == s.store.jobs.Keys;
      }
      forall id | id in s'.store.jobs ensures GoodJob(s', id) {
        assert id != job.id ==> GoodJob(s, id);
      }
      SnapsStayGood(s, s');
    }
  }

  lemma SetStateKeeps(s: Sys, id: Id, s': Sys)
    requires Inv(s)
    requires s' == s.(store := UpdateState(s.store, id, Scheduled, s.now).0)
    ensures Inv(s')
  {
    if id in s.store.jobs {
      assert GoodJob(s, id);
      var job := s.store.jobs[id].(state := Scheduled, updatedAt := s.now);
      WriteKeeps(s, job, s');
    }
  }

  lemma ClaimKeeps(s: Sys, id: Id, worker: string, s': Sys)
    requires Inv(s)
    requires s' == s.(store := ClaimJob(s.store, id, worker, s.now).0)
    ensures Inv(s')
  {
    if id in s.store.jobs && s.store.jobs[id].state.IsClaimable() {
      assert GoodJob(s, id);
      WriteKeeps(s, Lifecycle.Claim(s.store.jobs[id], worker, s.now), s');
    }
  }

  // In-flight records stay good when a fresh job is added.
  lemma SubmitKeepsSnaps(s: Sys, id: Id, key: string, s': Sys)
    requires Inv(s) && id !in s.created
    requires s' == s.(store := s'.store, created := s.created[id := key])
    ensures forall tid :: tid in s'.threads ==> GoodThread(s', s'.threads[tid])
    ensures forall j :: j in s'.recov ==> GoodSnap(s', j, s'.recovSince)
  {
    forall tid | tid in s'.threads ensures GoodThread(s', s'.threads[tid]) {
      assert GoodThread(s, s.threads[tid]);
    }
    forall j | j in s'.recov ensures GoodSnap(s', j, s'.recovSince) {
      assert GoodSnap(s, j, s.recovSince);
    }
  }

  lemma SubmitKeepsJobs(s: Sys, job: Job, s': Sys)
    requires Inv(s) && Untouched(job) && job.id !in s.created
    requires s' == s.(store := s'.store, created := s.created[job.id := job.idempotencyKey])
    requires s'.store.jobs == s.store.jobs[job.id := job]
    ensures forall id :: id in s'.store.jobs ==> GoodJob(s', id)
    ensures |s'.store.jobs| + s'.deleted + s'.swept == |s'.created|
  {
    assert job.id !in s.store.jobs by {
      assert job.id in s.store.jobs ==> GoodJob(s, job.id);
    }
    GrownMap(s.store.jobs, job.id, job);
    GrownMap(s.created, job.id, job.idempotencyKey);
    forall id | id in s'.store.jobs ensures GoodJob(s', id) {
      if id != job.id {
        assert GoodJob(s, id);
      }
    }
  }

  lemma SubmitKeeps(s: Sys, job: Job)
    requires Inv(s) && Untouched(job) && job.id !in s.created
    ensures Inv(Submitted(s, job))
  {
    if Create(s.store, job).1 == Done {
      var s' := Submitted(s, job);
      assert WellFormed(s'.store) by { CreateKeepsIndex(s.store, job); }
      SubmitKeepsSnaps(s, job.id, job.idempotencyKey, s');
      SubmitKeepsJobs(s, job, s');
    }
  }

  lemma RemoveKeeps(s: Sys, ids: set<Id>, s': Sys)
    requires Inv(s) && ids <= s.store.jobs.Keys
    requires s'.store == JobStore.Remove(s.store, ids)
    requires s' == s.(store := s'.store, deleted := s'.deleted, swept := s'.swept)
    requires s'.deleted + s'.swept == s.deleted + s.swept + |ids|
    ensures Inv(s')
  {
    assert WellFormed(s'.store) && s'.store.jobs.Keys == s.store.jobs.Keys - ids by {
      RemoveKeepsIndex(s.store, ids);
    }
    assert |s'.store.jobs| == |s.store.jobs| - |ids| by {
      assert |s.store.jobs.Keys - ids| == |s.store.jobs.Keys| - |ids|;
    }
    RemoveKeepsRecords(s, ids, s');
  }

  lemma RemoveKeepsRecords(s: Sys, ids: set<Id>, s': Sys)
    requires Inv(s)
    requires s'.store == JobStore.Remove(s.store, ids)
    requires s' == s.(store := s'.store, deleted := s'.deleted, swept := s'.swept)
    ensures forall id :: id in s'.store.jobs ==> GoodJob(s', id)
    ensures forall tid :: tid in s'.threads ==> GoodThread(s', s'.threads[tid])
    ensures forall j :: j in s'.recov ==> GoodSnap(s', j, s'.recovSince)
  {
    forall id | id in s'.store.jobs ensures GoodJob(s', id) {
      assert GoodJob(s, id);
    }
    forall tid | tid in s'.threads ensures GoodThread(s', s'.threads[tid]) {
      assert GoodThread(s, s.threads[tid]);
    }
    forall j | j in s'.recov ensures GoodSnap(s', j, s'.recovSince) {
      assert GoodSnap(s, j, s.recovSince);
    }
  }

  // Steps that leave the jobs, the index and the ghost counters alone.
  ghost predicate Quiet(s: Sys, s': Sys) {
    && s'.store.jobs == s.store.jobs && s'.store.idem == s.store.idem
    && s'.created == s.created && s'.deleted == s.deleted && s'.swept == s.swept
    && s.now <= s'.now
  }

  lemma QuietKeeps(s: Sys, s': Sys)
    requires Inv(s) && Quiet(s, s')
    requires forall tid :: tid in s'.threads ==>
               GoodThread(s', s'.threads[tid]) || (tid in s.threads && s'.threads[tid] == s.threads[tid])
    requires s'.recovSince == s.recovSince && forall j :: j in s'.recov ==> j in s.recov
    ensures Inv(s')
  {
    forall id | id in s'.store.jobs ensures GoodJob(s', id) {
      assert GoodJob(s, id);
    }
    forall tid | tid in s'.threads ensures GoodThread(s', s'.threads[tid]) {
      assert tid in s.threads ==> GoodThread(s, s.threads[tid]);
    }
    forall j | j in s'.recov ensures GoodSnap(s', j, s'.recovSince) {
      assert GoodSnap(s, j, s.recovSince);
    }
  }

  lemma ReadIsGood(s: Sys, id: Id)
    requires Inv(s) && id in s.store.jobs
    ensures GoodSnap(s, s.store.jobs[id], s.now)
  {
    assert GoodJob(s, id);
  }

  lemma WrittenKeeps(s: Sys, tid: Tid, t: Time, delay: Duration)
    requires Inv(s) && tid in s.threads && s.threads[tid].Writing? && s.threads[tid].since <= t <= s.now
    ensures Inv(Written(s, tid, s.threads[tid], t, delay))
  {
    var th := s.threads[tid];
    assert GoodThread(s, th);
    EditedRecord(th.call, th.snap, th.since, t, delay, s.now);
    var job := Edited(th.call, th.snap, t, delay);
    var mid := s.(store := Update(s.store, job, s.now).0);
    WriteKeeps(s, job, mid);
    QuietKeeps(mid, Written(s, tid, th, t, delay));
  }

  lemma RecoveredKeeps(s: Sys, t: Time)
    requires Inv(s) && s.recov != [] && s.recovSince <= t <= s.now
    ensures Inv(Recovered(s, t))
  {
    var snap := s.recov[0];
    assert GoodSnap(s, snap, s.recovSince);
    var job := Lifecycle.Recover(snap, t);
    var mid := s.(store := Update(s.store, job, s.now).0);
    WriteKeeps(s, job, mid);
    QuietKeeps(mid, Recovered(s, t));
  }

  lemma MarkedKeeps(s: Sys)
    requires Inv(s) && s.sched != []
    ensures Inv(Marked(s))
  {
    var mid := s.(store := Marked(s).store);
    SetStateKeeps(s, s.sched[0].id, mid);
    QuietKeeps(mid, Marked(s));
  }

  lemma ReleasedKeeps(s: Sys)
    requires Inv(s) && s.delayed != []
    ensures Inv(Released(s))
  {
    var mid := s.(store := Released(s).store);
    SetStateKeeps(s, s.delayed[0].id, mid);
    QuietKeeps(mid, Released(s));
  }

  lemma ClaimedKeeps(c: Config, s: Sys, tid: Tid, id: Id)
    requires Inv(s)
    ensures Inv(Claimed(c, s, tid, id))
  {
    var mid := s.(store := Claimed(c, s, tid, id).store);
    ClaimKeeps(s, id, c.workerId, mid);
    QuietKeeps(mid, Claimed(c, s, tid, id));
  }

  lemma FinishedKeeps(s: Sys, tid: Tid, result: JobResult)
    requires Inv(s)
    ensures Inv(Finished(s, tid, result))
  {
    if result.jobId in s.store.jobs {
      ReadIsGood(s, result.jobId);
    }
    QuietKeeps(s, Finished(s, tid, result));
  }

  lemma AskedKeeps(s: Sys, tid: Tid, id: Id, call: Call)
    requires Inv(s)
    ensures Inv(Asked(s, tid, id, call))
  {
    if id in s.store.jobs {
      ReadIsGood(s, id);
    }
    QuietKeeps(s, Asked(s, tid, id, call));
  }

  lemma SavedKeeps(s: Sys, tid: Tid)
    requires Inv(s) && tid in s.threads && s.threads[tid].Saving?
    ensures Inv(Saved(s, tid, s.threads[tid]))
  {
    assert GoodThread(s, s.threads[tid]);
    QuietKeeps(s, Saved(s, tid, s.threads[tid]));
  }

  lemma RecoverReadKeeps(s: Sys, batch: seq<Job>)
    requires Inv(s) && s.recov == [] && Snapshot(s.store.jobs, batch)
    ensures Inv(s.(recov := batch, recovSince := s.now))
  {
    var end := s.(recov := batch, recovSince := s.now);
    forall j | j in batch ensures GoodSnap(end, j, end.recovSince) {
      ReadIsGood(s, j.id);
    }
    forall tid | tid in end.threads ensures GoodThread(end, end.threads[tid]) {
      assert GoodThread(s, s.threads[tid]);
    }
    forall id | id in end.store.jobs ensures GoodJob(end, id) {
      assert GoodJob(s, id);
    }
  }

  lemma PushedKeeps(c: Config, s: Sys)
    requires Inv(s) && s.sched != []
    ensures Inv(Pushed(c, s))
  {
    QuietKeeps(s, Pushed(c, s));
  }

  lemma ReceivedKeeps(s: Sys, tid: Tid)
    requires Inv(s) && s.poolCh != []
    ensures Inv(Received(s, tid))
  {
    QuietKeeps(s, Received(s, tid));
  }

  // The steps on the clock, the batches, the results and the checkpoints, and the crash.
  lemma QuietStepKeeps(c: Config, s: Sys, e: Event)
    requires Inv(s) && Enabled(c, s, e)
    requires e.Tick? || e.SchedRead? || e.DelayedRead? || e.Checkpoint? || e.Record? || e.Crash?
    ensures Inv(Next(c, s, e))
  {
    QuietKeeps(s, Next(c, s, e));
  }

  lemma StepKeeps(c: Config, s: Sys, e: Event)
    requires Inv(s) && Enabled(c, s, e)
    ensures Inv(Next(c, s, e))
  {
    match e {
      case Submit(job) => SubmitKeeps(s, job);
      case SchedMark => MarkedKeeps(s);
      case DelayedMark => ReleasedKeeps(s);
      case ClaimEntry(tid) => ClaimedKeeps(c, s, tid, s.threads[tid].entry.id);
      case Finish(tid, result) => FinishedKeeps(s, tid, result);
      case Ask(tid, id, call) => AskedKeeps(s, tid, id, call);
      case Save(tid) => SavedKeeps(s, tid);
      case Write(tid, t, delay) => WrittenKeeps(s, tid, t, delay);
      case RecoverRead(batch, _) => RecoverReadKeeps(s, batch);
      case RecoverWrite(t) => RecoveredKeeps(s, t);
      case Remove(id) => if id in s.store.jobs { RemoveKeeps(s, {id}, Removed(s, id)); }
      case Sweep(cutoff) => RemoveKeeps(s, ExpiredIds(s.store.jobs, cutoff), Swept(s, cutoff));
      case SchedPush => PushedKeeps(c, s);
      case Fetch => QuietKeeps(s, Next(c, s, e));
      case Forward => QuietKeeps(s, Next(c, s, e));
      case Receive(tid) => ReceivedKeeps(s, tid);
      case _ => QuietStepKeeps(c, s, e);
    }
  }

  lemma {:induction false} RunKeeps(c: Config, s: Sys, events: seq<Event>)
    requires Inv(s) && Run(c, s, events)
    ensures Inv(After(c, s, events))
    decreases |events|
  {
    if events != [] {
      StepKeeps(c, s, events[0]);
      RunKeeps(c, Next(c, s, events[0]), events[1..]);
    }
  }

  // ----- What holds in every reachable state -----

  // No interleaving, however stale its writes, stores a record that contradicts its own state.
  lemma RecordsStayConsistent(c: Config, events: seq<Event>, id: Id)
    requires Run(c, INIT, events)
    requires id in After(c, INIT, events).store.jobs
    ensures var end := After(c, INIT, events);
            Lifecycle.Consistent(end.store.jobs[id], end.now)
  {
    RunKeeps(c, INIT, events);
    assert GoodJob(After(c, INIT, events), id);
  }

  // The idempotency index is exact, so no two stored jobs share a key.
  lemma IndexStaysExact(c: Config, events: seq<Event>)
    requires Run(c, INIT, events)
    ensures var s := After(c, INIT, events).store;
            && (forall k: string, id: Id :: (k in s.idem && s.idem[k] == id) <==>
                  (k != "" && id in s.jobs && s.jobs[id].idempotencyKey == k))
            && (forall a, b :: a in s.jobs && b in s.jobs && s.jobs[a].idempotencyKey == s.jobs[b].idempotencyKey != ""
                  ==> a == b)
  {
    RunKeeps(c, INIT, events);
    var s := After(c, INIT, events).store;
    forall k: string, id: Id
      ensures (k in s.idem && s.idem[k] == id) <==> (k != "" && id in s.jobs && s.jobs[id].idempotencyKey == k)
    {
      if k != "" && id in s.jobs && s.jobs[id].idempotencyKey == k {
        assert s.idem[s.jobs[id].idempotencyKey] == id;
      }
    }
  }

  // Jobs are neither lost nor invented: Stats adds up to what was created and not removed.
  lemma JobsAreConserved(c: Config, events: seq<Event>, q: QueueStats)
    requires Run(c, INIT, events)
    requires Counts(After(c, INIT, events).store.jobs, q)
    ensures var end := After(c, INIT, events);
            && q.totalJobs == q.CounterSum() + |InState(end.store.jobs, Retrying)|
            && q.totalJobs == |end.created| - end.deleted - end.swept
  {
    assert |After(c, INIT, events).store.jobs| ==
           |After(c, INIT, events).created| - After(c, INIT, events).deleted - After(c, INIT, events).swept by {
      RunKeeps(c, INIT, events);
    }
    StatsAddUp(After(c, INIT, events).store.jobs, q);
  }
}
