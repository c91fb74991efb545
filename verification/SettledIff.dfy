// A terminal job that something still has in hand does not keep its record: each condition of a settled
// job is needed.
module SettledIff {
  import opened Core
  import opened JobStore
  import opened Protocol
  import opened Runs
  import LateWrites
  import Lifecycle
  import ProtocolClaims
  import ProtocolRecords
  import Walks

  // The record has been written at the present time.
  ghost predicate Stamped(s: Sys, id: Id) {
    id in s.store.jobs && s.store.jobs[id].updatedAt == s.now
  }

  // ----- What is in hand is written -----

  lemma RecoverOne(c: Config, start: Sys, s: Sys) returns (t: Sys)
    requires Reaches(c, Walks.OnItsOwn, start, s) && s.recov != [] && s.recovSince <= s.now
    ensures Reaches(c, Walks.OnItsOwn, start, t) && t == s.(store := t.store, recov := s.recov[1..])
    ensures s.store.jobs.Keys == t.store.jobs.Keys
    ensures s.recov[0].id in s.store.jobs ==> Stamped(t, s.recov[0].id)
  {
    t := Go(c, Walks.OnItsOwn, start, s, RecoverWrite(s.now));
    assert Lifecycle.Recover(s.recov[0], s.now).id == s.recov[0].id;
  }

  lemma {:induction false} RecoverCarriedOut(c: Config, start: Sys, s: Sys, id: Id) returns (t: Sys)
    requires Reaches(c, Walks.OnItsOwn, start, s) && id in s.store.jobs && id in IdsOf(s.recov) && s.recovSince <= s.now
    ensures Reaches(c, Walks.OnItsOwn, start, t) && Stamped(t, id) && t.now == s.now
    decreases |s.recov|
  {
    HeadApart(s.recov);
    var t1 := RecoverOne(c, start, s);
    if s.recov[0].id == id {
      t := t1;
    } else {
      t := RecoverCarriedOut(c, start, t1, id);
    }
  }

  lemma WriteCarriedOut(c: Config, start: Sys, s: Sys, id: Id, tid: Tid) returns (t: Sys)
    requires Reaches(c, Walks.OnItsOwn, start, s) && id in s.store.jobs
    requires tid in s.threads && s.threads[tid].Writing? && s.threads[tid].snap.id == id && s.threads[tid].since <= s.now
    ensures Reaches(c, Walks.OnItsOwn, start, t) && Stamped(t, id) && t.now == s.now
  {
    t := Go(c, Walks.OnItsOwn, start, s, Write(tid, s.now, 0));
    assert Edited(s.threads[tid].call, s.threads[tid].snap, s.now, 0).id == id;
  }

  lemma SaveCarriedOut(c: Config, start: Sys, s: Sys, id: Id, tid: Tid) returns (t: Sys)
    requires Reaches(c, Walks.OnItsOwn, start, s) && id in s.store.jobs
    requires tid in s.threads && s.threads[tid].Saving? && s.threads[tid].snap.id == id && s.threads[tid].since <= s.now
    ensures Reaches(c, Walks.OnItsOwn, start, t) && Stamped(t, id) && t.now == s.now
  {
    var t1 := Go(c, Walks.OnItsOwn, start, s, Save(tid));
    t := WriteCarriedOut(c, start, t1, id, tid);
  }

  lemma ExecutionCarriedOut(c: Config, start: Sys, s: Sys, id: Id, tid: Tid) returns (t: Sys)
    requires Reaches(c, Walks.OnItsOwn, start, s) && KeyedById(s.store) && id in s.store.jobs
    requires tid in s.threads && s.threads[tid] == Executing(id)
    ensures Reaches(c, Walks.OnItsOwn, start, t) && Stamped(t, id) && t.now == s.now
  {
    var t1 := Go(c, Walks.OnItsOwn, start, s, Finish(tid, JobResult(id, true, [], "", NoCategory, 0, s.now)));
    t := WriteCarriedOut(c, start, t1, id, tid);
  }

  lemma ThreadCarriedOut(c: Config, start: Sys, s: Sys, id: Id, tid: Tid) returns (t: Sys)
    requires Reaches(c, Walks.OnItsOwn, start, s) && KeyedById(s.store) && id in s.store.jobs
    requires tid in s.threads && LateWrites.Touches(s.threads[tid], id)
    requires s.threads[tid].Saving? || s.threads[tid].Writing? ==> s.threads[tid].since <= s.now
    ensures Reaches(c, Walks.OnItsOwn, start, t) && Stamped(t, id) && t.now == s.now
  {
    match s.threads[tid] {
      case Executing(_) => t := ExecutionCarriedOut(c, start, s, id, tid);
      case Saving(_, _, _) => t := SaveCarriedOut(c, start, s, id, tid);
      case Writing(_, _, _) => t := WriteCarriedOut(c, start, s, id, tid);
    }
  }

  lemma BatchCarriedOut(c: Config, start: Sys, s: Sys, id: Id) returns (t: Sys)
    requires Reaches(c, Walks.OnItsOwn, start, s) && KeyedById(s.store) && id in s.store.jobs && s.recovSince <= s.now
    requires !LateWrites.InNoBatch(s, id)
    ensures Reaches(c, Walks.OnItsOwn, start, t) && Stamped(t, id) && t.now == s.now
  {
    if id in IdsOf(s.recov) {
      t := RecoverCarriedOut(c, start, s, id);
    } else if id in IdsOf(s.delayed) {
      t := Walks.ReleaseCarriedOut(c, start, s, id);
    } else {
      t := Walks.MarkCarriedOut(c, start, s, id);
    }
  }

  // Time passes, and then what has the job in hand writes it.
  lemma Unsettled(c: Config, s: Sys, id: Id) returns (t: Sys)
    requires ProtocolRecords.Inv(s) && id in s.store.jobs && s.store.jobs[id].IsTerminal() && !LateWrites.Settled(s, id)
    ensures Reaches(c, Walks.OnItsOwn, s, t) && id in t.store.jobs && t.store.jobs[id].updatedAt > s.store.jobs[id].updatedAt
  {
    Here(c, Walks.OnItsOwn, s);
    var s1 := Walks.Waited(c, s, s, s.store.jobs[id].updatedAt + 1);
    if LateWrites.InNoBatch(s, id) {
      var tid :| tid in s.threads && LateWrites.Touches(s.threads[tid], id);
      assert ProtocolRecords.GoodThread(s, s.threads[tid]);
      t := ThreadCarriedOut(c, s, s1, id, tid);
    } else {
      t := BatchCarriedOut(c, s, s1, id);
    }
  }

  // ----- The result -----

  lemma {:induction false} OwnRunsDoNotDisturb(c: Config, s: Sys, events: seq<Event>, id: Id)
    requires Run(c, s, events) && forall e :: e in events ==> Walks.OnItsOwn(e)
    ensures LateWrites.Undisturbed(c, s, events, id)
    decreases |events|
  {
    if events != [] {
      assert Walks.OnItsOwn(events[0]);
      OwnRunsDoNotDisturb(c, Next(c, s, events[0]), events[1..], id);
    }
  }

  // Every further run in which no Retry of the job is accepted and nothing removes it leaves its record.
  ghost predicate Keeps(c: Config, s: Sys, id: Id)
    requires id in s.store.jobs
  {
    forall later :: Run(c, s, later) && LateWrites.Undisturbed(c, s, later, id) ==>
      id in After(c, s, later).store.jobs && After(c, s, later).store.jobs[id] == s.store.jobs[id]
  }

  // A terminal job keeps its whole record until a Retry of it is accepted or it is removed, if and only if
  // no loop, no call and no execution has it in hand.
  lemma KeepsIffSettled(c: Config, before: seq<Event>, id: Id)
    requires Run(c, INIT, before)
    requires var s := After(c, INIT, before); id in s.store.jobs && s.store.jobs[id].IsTerminal()
    ensures Keeps(c, After(c, INIT, before), id) <==> LateWrites.Settled(After(c, INIT, before), id)
  {
    var s := After(c, INIT, before);
    ProtocolRecords.RunKeeps(c, INIT, before);
    if LateWrites.Settled(s, id) {
      forall later | Run(c, s, later) && LateWrites.Undisturbed(c, s, later, id)
        ensures id in After(c, s, later).store.jobs && After(c, s, later).store.jobs[id] == s.store.jobs[id]
      {
        LateWrites.SettledStays(c, s, later, id);
      }
    } else {
      var t := Unsettled(c, s, id);
      var later :| Run(c, s, later) && After(c, s, later) == t && forall e :: e in later ==> Walks.OnItsOwn(e);
      OwnRunsDoNotDisturb(c, s, later, id);
    }
  }
}
