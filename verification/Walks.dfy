// How the loops and the workers carry out by themselves what they have in hand: runs in which nothing is
// submitted, called, removed or swept and nothing crashes.
module Walks {
  import opened Core
  import opened JobStore
  import opened Protocol
  import opened Runs
  import ProtocolClaims

  predicate OnItsOwn(e: Event) {
    match e
    case Submit(_) | Ask(_, _, _) | Remove(_) | Sweep(_) | Crash => false
    case _ => true
  }

  // ----- Taking entries out of the channels -----

  lemma {:induction false} AboveAll(ids: set<nat>) returns (bound: nat)
    ensures forall i :: i in ids ==> i < bound
    decreases |ids|
  {
    if ids == {} {
      bound := 0;
    } else {
      var i :| i in ids;
      var b := AboveAll(ids - {i});
      assert forall k :: k in ids ==> k == i || k in ids - {i};
      bound := if i < b then b else i + 1;
    }
  }

  lemma FreshThread(threads: map<Tid, Thread>) returns (tid: Tid)
    ensures tid !in threads
  {
    tid := AboveAll(threads.Keys);
  }

  // How many channel steps are left.
  function Load(s: Sys): nat {
    3 * |s.jobCh| + 2 * One(s.fetched.Some?) + |s.poolCh|
  }

  lemma ChannelStep(c: Config, start: Sys, s: Sys) returns (t: Sys)
    requires Reaches(c, OnItsOwn, start, s) && Load(s) > 0
    ensures Reaches(c, OnItsOwn, start, t) && Load(t) < Load(s)
    ensures t == s.(jobCh := t.jobCh, fetched := t.fetched, poolCh := t.poolCh, threads := t.threads)
  {
    if s.poolCh != [] {
      var tid := FreshThread(s.threads);
      t := Go(c, OnItsOwn, start, s, Receive(tid));
    } else if s.fetched.Some? {
      t := Go(c, OnItsOwn, start, s, Forward);
    } else {
      t := Go(c, OnItsOwn, start, s, Fetch);
    }
  }

  lemma {:induction false} Drained(c: Config, start: Sys, s: Sys) returns (t: Sys)
    requires Reaches(c, OnItsOwn, start, s)
    ensures Reaches(c, OnItsOwn, start, t)
    ensures t == s.(jobCh := [], fetched := None, poolCh := [], threads := t.threads)
    decreases Load(s)
  {
    if Load(s) == 0 {
      t := s;
    } else {
      var t1 := ChannelStep(c, start, s);
      t := Drained(c, start, t1);
    }
  }

  // ----- Working off a batch -----

  // What a loop's batch leaves alone.
  predicate SameElse(s: Sys, t: Sys) {
    t == s.(store := t.store, jobCh := t.jobCh, fetched := t.fetched, poolCh := t.poolCh, sched := t.sched,
            delayed := t.delayed, threads := t.threads)
  }

  function HeadMarked(s: Sys): Store
    requires s.sched != []
  {
    if s.sched[0].state == Pending then UpdateState(s.store, s.sched[0].id, Scheduled, s.now).0 else s.store
  }

  lemma MarkIfPending(c: Config, start: Sys, s: Sys) returns (t: Sys)
    requires Reaches(c, OnItsOwn, start, s) && s.sched != []
    ensures Reaches(c, OnItsOwn, start, t) && t.sched != [] && t.sched[0].state != Pending
    ensures t == s.(store := HeadMarked(s), sched := t.sched) && t.sched[1..] == s.sched[1..] && t.sched[0].id == s.sched[0].id
  {
    if s.sched[0].state == Pending {
      t := Go(c, OnItsOwn, start, s, SchedMark);
    } else {
      t := s;
    }
  }

  // With room in the channel, the head of the schedule loop's batch is marked and pushed.
  lemma HeadPushed(c: Config, start: Sys, s: Sys) returns (t: Sys)
    requires Reaches(c, OnItsOwn, start, s) && s.sched != []
    ensures Reaches(c, OnItsOwn, start, t) && SameElse(s, t) && t.store == HeadMarked(s)
    ensures t.sched == s.sched[1..] && t.delayed == s.delayed && t.fetched == None && t.poolCh == []
    ensures |t.jobCh| == 1 && t.jobCh[0].id == s.sched[0].id
  {
    var t1 := Drained(c, start, s);
    var t2 := MarkIfPending(c, start, t1);
    t := Go(c, OnItsOwn, start, t2, SchedPush);
  }

  lemma MarkLater(batch: seq<Job>, id: Id)
    requires batch != [] && id in ProtocolClaims.MarkIds(batch) && (batch[0].state == Pending ==> batch[0].id != id)
    ensures id in ProtocolClaims.MarkIds(batch[1..])
  {
    ProtocolClaims.HeadTail(batch);
  }

  lemma PushedKeepsIt(s: Sys, id: Id)
    requires s.sched != [] && KeyedById(s.store) && id in s.store.jobs
    requires id in ProtocolClaims.MarkIds(s.sched) && (s.sched[0].state == Pending ==> s.sched[0].id != id)
    ensures KeyedById(HeadMarked(s)) && id in HeadMarked(s).jobs && id in ProtocolClaims.MarkIds(s.sched[1..])
  {
    MarkLater(s.sched, id);
  }

  lemma Mark(c: Config, start: Sys, s: Sys) returns (t: Sys)
    requires Reaches(c, OnItsOwn, start, s) && KeyedById(s.store)
    requires s.sched != [] && s.sched[0].state == Pending && s.sched[0].id in s.store.jobs
    ensures Reaches(c, OnItsOwn, start, t) && SameElse(s, t) && KeyedById(t.store)
    ensures var id := s.sched[0].id;
            id in t.store.jobs && t.store.jobs[id].state == Scheduled && t.store.jobs[id].updatedAt == s.now
  {
    t := Go(c, OnItsOwn, start, s, SchedMark);
  }

  // The schedule loop comes to a job that it has read as Pending, and sets it to Scheduled.
  lemma {:induction false} MarkCarriedOut(c: Config, start: Sys, s: Sys, id: Id) returns (t: Sys)
    requires Reaches(c, OnItsOwn, start, s) && KeyedById(s.store)
    requires id in s.store.jobs && id in ProtocolClaims.MarkIds(s.sched)
    ensures Reaches(c, OnItsOwn, start, t) && SameElse(s, t) && KeyedById(t.store)
    ensures id in t.store.jobs && t.store.jobs[id].state == Scheduled && t.store.jobs[id].updatedAt == s.now
    decreases |s.sched|
  {
    if s.sched[0].state == Pending && s.sched[0].id == id {
      t := Mark(c, start, s);
    } else {
      var t1 := HeadPushed(c, start, s);
      PushedKeepsIt(s, id);
      t := MarkCarriedOut(c, start, t1, id);
    }
  }

  // Likewise the delayed loop.
  lemma Release(c: Config, start: Sys, s: Sys) returns (t: Sys)
    requires Reaches(c, OnItsOwn, start, s) && KeyedById(s.store) && s.delayed != []
    ensures Reaches(c, OnItsOwn, start, t) && SameElse(s, t) && KeyedById(t.store) && t.delayed == s.delayed[1..]
    ensures forall id :: id in s.store.jobs ==>
              id in t.store.jobs
              && if id == s.delayed[0].id then t.store.jobs[id].state == Scheduled && t.store.jobs[id].updatedAt == s.now
                 else t.store.jobs[id] == s.store.jobs[id]
  {
    t := Go(c, OnItsOwn, start, s, DelayedMark);
  }

  lemma {:induction false} ReleaseCarriedOut(c: Config, start: Sys, s: Sys, id: Id) returns (t: Sys)
    requires Reaches(c, OnItsOwn, start, s) && KeyedById(s.store)
    requires id in s.store.jobs && id in IdsOf(s.delayed)
    ensures Reaches(c, OnItsOwn, start, t) && SameElse(s, t) && KeyedById(t.store)
    ensures id in t.store.jobs && t.store.jobs[id].state == Scheduled && t.store.jobs[id].updatedAt == s.now
    decreases |s.delayed|
  {
    var t1 := Release(c, start, s);
    if s.delayed[0].id == id {
      t := t1;
    } else {
      HeadApart(s.delayed);
      t := ReleaseCarriedOut(c, start, t1, id);
    }
  }

  lemma {:induction false} DelayedEmptied(c: Config, start: Sys, s: Sys, id: Id) returns (t: Sys)
    requires Reaches(c, OnItsOwn, start, s) && KeyedById(s.store)
    requires id in s.store.jobs && id !in IdsOf(s.delayed)
    ensures Reaches(c, OnItsOwn, start, t) && SameElse(s, t) && KeyedById(t.store) && t.delayed == []
    ensures id in t.store.jobs && t.store.jobs[id] == s.store.jobs[id]
    decreases |s.delayed|
  {
    if s.delayed == [] {
      t := s;
    } else {
      HeadApart(s.delayed);
      var t1 := Release(c, start, s);
      t := DelayedEmptied(c, start, t1, id);
    }
  }

  lemma {:induction false} SchedEmptied(c: Config, start: Sys, s: Sys, id: Id) returns (t: Sys)
    requires Reaches(c, OnItsOwn, start, s) && KeyedById(s.store) && Claimable(s.store.jobs, id)
    ensures Reaches(c, OnItsOwn, start, t) && SameElse(s, t) && KeyedById(t.store) && Claimable(t.store.jobs, id)
    ensures t.sched == []
    decreases |s.sched|
  {
    if s.sched == [] {
      t := s;
    } else {
      var t1 := HeadPushed(c, start, s);
      t := SchedEmptied(c, start, t1, id);
    }
  }

  // ----- Listings that hold a given job -----

  lemma {:induction false} SomeOf(jobs: map<Id, Job>, pool: set<Id>, n: nat) returns (js: seq<Job>)
    requires pool <= jobs.Keys && (forall id :: id in jobs ==> jobs[id].id == id) && n <= |pool|
    ensures Snapshot(jobs, js) && IdsOf(js) <= pool && |js| == n
    decreases n
  {
    if n == 0 {
      js := [];
    } else {
      var id :| id in pool;
      var rest := SomeOf(jobs, pool - {id}, n - 1);
      js := [jobs[id]] + rest;
      PutFirst(jobs, pool, id, rest);
    }
  }

  lemma PutFirst(jobs: map<Id, Job>, pool: set<Id>, id: Id, rest: seq<Job>)
    requires id in pool && pool <= jobs.Keys && jobs[id].id == id
    requires Snapshot(jobs, rest) && IdsOf(rest) <= pool - {id}
    ensures Snapshot(jobs, [jobs[id]] + rest) && IdsOf([jobs[id]] + rest) <= pool
  {
    forall j | j in rest ensures j.id != id {
      assert j.id in IdsOf(rest);
    }
    HeadApart([jobs[id]] + rest);
    assert ([jobs[id]] + rest)[1..] == rest;
  }

  lemma TopWith(jobs: map<Id, Job>, pool: set<Id>, limit: Size, id: Id) returns (js: seq<Job>)
    requires pool <= jobs.Keys && (forall i :: i in jobs ==> jobs[i].id == i) && id in pool
    ensures TopOf(jobs, pool, limit, AnyOrder, js) && js != [] && js[0] == jobs[id]
  {
    var n := Min(limit, |pool|);
    assert |pool - {id}| == |pool| - 1;
    var rest := SomeOf(jobs, pool - {id}, n - 1);
    js := [jobs[id]] + rest;
    PutFirst(jobs, pool, id, rest);
  }

  // ----- A claimable job is claimed -----

  // The schedule loop lists it first, and pushes it.
  lemma Listed(c: Config, start: Sys, s: Sys, id: Id) returns (t: Sys)
    requires Reaches(c, OnItsOwn, start, s) && KeyedById(s.store) && Claimable(s.store.jobs, id) && s.sched == []
    ensures Reaches(c, OnItsOwn, start, t) && SameElse(s, t) && Claimable(t.store.jobs, id)
    ensures t.fetched == None && t.poolCh == [] && |t.jobCh| == 1 && t.jobCh[0].id == id
  {
    ClaimableIsPendingFilter(s.store.jobs, c.batchSize);
    var batch := TopWith(s.store.jobs, ClaimableIds(s.store.jobs), c.batchSize, id);
    var t1 := Go(c, OnItsOwn, start, s, SchedRead(batch));
    t := HeadPushed(c, start, t1);
  }

  // A worker takes the entry, and claims the job.
  lemma TakenAndClaimed(c: Config, start: Sys, s: Sys, id: Id) returns (t: Sys)
    requires Reaches(c, OnItsOwn, start, s) && Claimable(s.store.jobs, id)
    requires s.fetched == None && s.poolCh == [] && |s.jobCh| == 1 && s.jobCh[0].id == id
    ensures Reaches(c, OnItsOwn, start, t)
    ensures t.claims == s.claims + multiset{id} && t.retries == s.retries && t.now == s.now
  {
    var tid := FreshThread(s.threads);
    var t1 := Go(c, OnItsOwn, start, s, Fetch);
    var t2 := Go(c, OnItsOwn, start, t1, Forward);
    var t3 := Go(c, OnItsOwn, start, t2, Receive(tid));
    t := Go(c, OnItsOwn, start, t3, ClaimEntry(tid));
  }

  lemma ClaimCarriedOut(c: Config, start: Sys, s: Sys, id: Id) returns (t: Sys)
    requires Reaches(c, OnItsOwn, start, s) && KeyedById(s.store) && Claimable(s.store.jobs, id)
    ensures Reaches(c, OnItsOwn, start, t)
    ensures t.claims == s.claims + multiset{id} && t.retries == s.retries && t.now == s.now
  {
    var t1 := SchedEmptied(c, start, s, id);
    var t2 := Listed(c, start, t1, id);
    t := TakenAndClaimed(c, start, t2, id);
  }

  // ----- A Delayed job is released -----

  lemma Waited(c: Config, start: Sys, s: Sys, to: Time) returns (t: Sys)
    requires Reaches(c, OnItsOwn, start, s)
    ensures Reaches(c, OnItsOwn, start, t) && t == s.(now := t.now) && s.now <= t.now && to <= t.now
  {
    t := Go(c, OnItsOwn, start, s, Tick(if s.now <= to then to else s.now));
  }

  lemma ListedDue(c: Config, start: Sys, s: Sys, id: Id) returns (t: Sys)
    requires Reaches(c, OnItsOwn, start, s) && KeyedById(s.store) && s.delayed == []
    requires id in s.store.jobs && s.store.jobs[id].state == Delayed && s.store.jobs[id].scheduledAt <= s.now
    ensures Reaches(c, OnItsOwn, start, t) && t == s.(delayed := t.delayed) && id in IdsOf(t.delayed)
  {
    var batch := TopWith(s.store.jobs, DueIds(s.store.jobs, s.now), c.batchSize, id);
    HeadApart(batch);
    t := Go(c, OnItsOwn, start, s, DelayedRead(batch, s.now));
  }

  lemma DueCarriedOut(c: Config, start: Sys, s: Sys, id: Id) returns (t: Sys)
    requires Reaches(c, OnItsOwn, start, s) && KeyedById(s.store)
    requires id in s.store.jobs && s.store.jobs[id].state == Delayed && id !in IdsOf(s.delayed)
    ensures Reaches(c, OnItsOwn, start, t) && SameElse(s.(now := t.now), t) && KeyedById(t.store)
    ensures id in t.store.jobs && t.store.jobs[id].state == Scheduled
  {
    var t1 := DelayedEmptied(c, start, s, id);
    var t2 := Waited(c, start, t1, t1.store.jobs[id].scheduledAt);
    var t3 := ListedDue(c, start, t2, id);
    t := ReleaseCarriedOut(c, start, t3, id);
  }
}
