// A RecoverStuckJobs pass that runs alone (recovery/manager.go).
module RecoveryPass {
  import opened Core
  import opened JobStore
  import opened Actions
  import Lifecycle
  import Protocol
  import ProtocolRecords

  function RecoveredJob(j: Job, now: Time): Job {
    Lifecycle.Recover(j, now).(updatedAt := now)
  }

  function RecoverAll(jobs: map<Id, Job>, ids: set<Id>, now: Time): map<Id, Job> {
    map id | id in jobs :: if id in ids then RecoveredJob(jobs[id], now) else jobs[id]
  }

  lemma RecoverAllInTwo(jobs: map<Id, Job>, id: Id, ids: set<Id>, now: Time)
    requires id !in ids
    ensures RecoverAll(RecoverAll(jobs, {id}, now), ids, now) == RecoverAll(jobs, {id} + ids, now)
  {
  }

  lemma RecoverHead(s: Store, head: Job, now: Time)
    requires head.id in s.jobs && s.jobs[head.id] == head
    ensures Recover(s, head, now) == (s.(jobs := RecoverAll(s.jobs, {head.id}, now)), Done)
  {
    assert Recover(s, head, now).0.jobs == RecoverAll(s.jobs, {head.id}, now);
  }

  lemma {:induction false} BatchRecoversAll(s: Store, batch: seq<Job>, now: Time)
    requires Snapshot(s.jobs, batch)
    ensures RecoverBatch(s, batch, now) == (s.(jobs := RecoverAll(s.jobs, IdsOf(batch), now)), |batch|)
    decreases |batch|
  {
    if batch == [] {
      assert IdsOf(batch) == {} && RecoverAll(s.jobs, {}, now) == s.jobs;
    } else {
      var head := batch[0];
      assert head in batch;
      RecoverHead(s, head, now);
      var mid := s.(jobs := RecoverAll(s.jobs, {head.id}, now));
      TailSnapshot(s.jobs, mid.jobs, batch);
      BatchRecoversAll(mid, batch[1..], now);
      HeadApart(batch);
      RecoverAllInTwo(s.jobs, head.id, IdsOf(batch[1..]), now);
    }
  }

  // The list GetStuck gives a pass.
  predicate StuckList(s: Store, cutoff: Time, batch: seq<Job>) {
    Snapshot(s.jobs, batch) && IdsOf(batch) == StuckIds(s.jobs, cutoff)
  }

  // A pass moves exactly the stuck jobs, by their attempts, reports how many, and leaves none.
  lemma PassMovesTheStuck(s: Store, batch: seq<Job>, now: Time, timeout: Duration)
    requires StuckList(s, now - timeout, batch)
    ensures var (end, n) := RecoverBatch(s, batch, now);
            && end == s.(jobs := end.jobs) && end.jobs.Keys == s.jobs.Keys
            && n == |StuckIds(s.jobs, now - timeout)|
            && (forall id :: id in s.jobs && !Lifecycle.Stuck(s.jobs[id], now - timeout) ==> end.jobs[id] == s.jobs[id])
            && (forall id :: id in s.jobs && Lifecycle.Stuck(s.jobs[id], now - timeout) ==>
                  && Lifecycle.SameIdentity(end.jobs[id], s.jobs[id]) && end.jobs[id].attempt == s.jobs[id].attempt
                  && end.jobs[id].state == if s.jobs[id].attempt < s.jobs[id].maxAttempts then Retrying else DeadLetter)
            && StuckIds(end.jobs, now - timeout) == {}
  {
    BatchRecoversAll(s, batch, now);
    DistinctCount(batch);
    var end := RecoverBatch(s, batch, now).0;
    forall id | id in s.jobs
      ensures id in IdsOf(batch) <==> Lifecycle.Stuck(s.jobs[id], now - timeout)
    {
      assert id in StuckIds(s.jobs, now - timeout) <==> Lifecycle.Stuck(s.jobs[id], now - timeout);
    }
    assert forall id :: id in end.jobs ==> !Lifecycle.Stuck(end.jobs[id], now - timeout);
  }

  // The jobs Running since before the cutoff wait for their retry, ten seconds an attempt, or are dead, and
  // nothing else has changed.
  ghost predicate MovedInFields(s: Store, end: Store, now: Time, timeout: Duration) {
    && end == s.(jobs := end.jobs) && end.jobs.Keys == s.jobs.Keys
    && forall id :: id in s.jobs ==>
         var j := s.jobs[id];
         end.jobs[id] ==
           if !(j.state == Running && j.startedAt != 0 && j.startedAt < now - timeout) then j
           else if j.attempt < j.maxAttempts then
             j.(state := Retrying, workerId := "", scheduledAt := now + j.attempt * 10_000_000_000, updatedAt := now)
           else
             j.(state := DeadLetter, completedAt := now, lastError := "job exceeded visibility timeout", updatedAt := now)
  }

  lemma PassInFields(s: Store, batch: seq<Job>, now: Time, timeout: Duration)
    requires StuckList(s, now - timeout, batch)
    ensures MovedInFields(s, RecoverBatch(s, batch, now).0, now, timeout)
  {
    BatchRecoversAll(s, batch, now);
    forall id | id in s.jobs
      ensures id in IdsOf(batch) <==> s.jobs[id].state == Running && s.jobs[id].startedAt != 0 && s.jobs[id].startedAt < now - timeout
    {
      assert id in StuckIds(s.jobs, now - timeout) <==> Lifecycle.Stuck(s.jobs[id], now - timeout);
    }
  }

  // A second pass at the same instant has nothing to do.
  lemma PassIsIdempotent(s: Store, batch: seq<Job>, again: seq<Job>, now: Time, timeout: Duration)
    requires StuckList(s, now - timeout, batch)
    requires StuckList(RecoverBatch(s, batch, now).0, now - timeout, again)
    ensures RecoverBatch(RecoverBatch(s, batch, now).0, again, now) == (RecoverBatch(s, batch, now).0, 0)
  {
    PassMovesTheStuck(s, batch, now, timeout);
    DistinctCount(again);
  }

  // What is Running after a pass was claimed within the timeout.
  lemma PassLeavesTheRecent(s: Protocol.Sys, timeout: Duration, batch: seq<Job>)
    requires ProtocolRecords.Inv(s) && StuckList(s.store, s.now - timeout, batch)
    ensures var st := RecoverBatch(s.store, batch, s.now).0;
            forall id :: id in st.jobs && st.jobs[id].state == Running ==> st.jobs[id].startedAt >= s.now - timeout
  {
    PassMovesTheStuck(s.store, batch, s.now, timeout);
    var st := RecoverBatch(s.store, batch, s.now).0;
    forall id | id in st.jobs && st.jobs[id].state == Running
      ensures st.jobs[id].startedAt >= s.now - timeout
    {
      assert ProtocolRecords.GoodJob(s, id);
      assert !Lifecycle.Stuck(s.store.jobs[id], s.now - timeout);
    }
  }

  // After a crash, whatever happens next, one pass that starts late enough leaves no job Running
  // that was claimed before the crash.
  lemma LatePassClearsTheCrash(c: Protocol.Config, before: seq<Protocol.Event>, later: seq<Protocol.Event>, batch: seq<Job>)
    requires Protocol.Run(c, Protocol.INIT, before)
    requires var crashed := Protocol.Crashed(Protocol.After(c, Protocol.INIT, before));
             && Protocol.Run(c, crashed, later)
             && var end := Protocol.After(c, crashed, later);
             && crashed.now < end.now - c.visibility
             && StuckList(end.store, end.now - c.visibility, batch)
    ensures var crashed := Protocol.Crashed(Protocol.After(c, Protocol.INIT, before));
            var end := Protocol.After(c, crashed, later);
            var (st, _) := RecoverBatch(end.store, batch, end.now);
            forall id :: id in st.jobs && st.jobs[id].state == Running ==> st.jobs[id].startedAt > crashed.now
  {
    var s := Protocol.After(c, Protocol.INIT, before);
    InvAfterCrash(c, before, later);
    PassLeavesTheRecent(Protocol.After(c, Protocol.Crashed(s), later), c.visibility, batch);
  }

  lemma InvAfterCrash(c: Protocol.Config, before: seq<Protocol.Event>, later: seq<Protocol.Event>)
    requires Protocol.Run(c, Protocol.INIT, before)
    requires Protocol.Run(c, Protocol.Crashed(Protocol.After(c, Protocol.INIT, before)), later)
    ensures ProtocolRecords.Inv(Protocol.After(c, Protocol.Crashed(Protocol.After(c, Protocol.INIT, before)), later))
  {
    var s := Protocol.After(c, Protocol.INIT, before);
    ProtocolRecords.RunKeeps(c, Protocol.INIT, before);
    ProtocolRecords.StepKeeps(c, s, Protocol.Crash);
    ProtocolRecords.RunKeeps(c, Protocol.Crashed(s), later);
  }

  // Every job Running at the crash was claimed by then, so the pass above concerns all of them.
  lemma RunningAtTheCrash(c: Protocol.Config, before: seq<Protocol.Event>, id: Id)
    requires Protocol.Run(c, Protocol.INIT, before)
    requires var s := Protocol.After(c, Protocol.INIT, before); id in s.store.jobs && s.store.jobs[id].state == Running
    ensures var crashed := Protocol.Crashed(Protocol.After(c, Protocol.INIT, before));
            ZERO_TIME < crashed.store.jobs[id].startedAt <= crashed.now
  {
    ProtocolRecords.RecordsStayConsistent(c, before, id);
  }
}
