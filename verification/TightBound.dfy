// The bound on claims is the best possible: for every number of retries there is a run that reaches it.
module TightBound {
  import opened Core
  import opened JobStore
  import opened Protocol
  import opened ProtocolClaims
  import opened Runs

  const SETUP := Config(10, 10, 0, "worker")
  const JOB := DefaultJob(0, "example", 1)
  const BROKEN := JobResult(0, false, [], "broken", Permanent, 0, 1)

  // ----- Runs, one step at a time -----

  // Submissions, the schedule loop, workers and Retry: nothing else.
  predicate Plain(e: Event) {
    match e
    case Tick(_) | DelayedRead(_, _) | DelayedMark | RecoverRead(_, _) | RecoverWrite(_) => false
    case Remove(_) | Sweep(_) | Crash => false
    case Ask(_, _, call) => call.Retry?
    case _ => true
  }

  // A run of such events from `s` to `t`, in which the retries `h` found an entry in hand.
  ghost predicate Comes(s: Sys, t: Sys, h: multiset<Id>) {
    exists events :: Run(SETUP, s, events) && After(SETUP, s, events) == t && HintedRetries(SETUP, s, events) == h
                     && forall e :: e in events ==> Plain(e)
  }

  lemma ComesIsReaches(s: Sys, t: Sys, h: multiset<Id>)
    requires Comes(s, t, h)
    ensures Reaches(SETUP, Plain, s, t)
  {
  }

  lemma HintedOnce(s: Sys, e: Event)
    requires Enabled(SETUP, s, e)
    ensures Run(SETUP, s, [e]) && HintedRetries(SETUP, s, [e]) == HintedBy(s, e)
  {
    assert [e][1..] == [];
    assert Run(SETUP, Next(SETUP, s, e), []) && HintedRetries(SETUP, Next(SETUP, s, e), []) == multiset{};
  }

  lemma {:induction false} HintedOneMore(s: Sys, events: seq<Event>, e: Event)
    requires Run(SETUP, s, events) && Enabled(SETUP, After(SETUP, s, events), e)
    requires Run(SETUP, s, events + [e])
    ensures HintedRetries(SETUP, s, events + [e]) == HintedRetries(SETUP, s, events) + HintedBy(After(SETUP, s, events), e)
    decreases |events|
  {
    if events == [] {
      HintedOnce(s, e);
      assert events + [e] == [e];
    } else {
      assert (events + [e])[0] == events[0] && (events + [e])[1..] == events[1..] + [e];
      HintedOneMore(Next(SETUP, s, events[0]), events[1..], e);
      SumOfHinted(HintedBy(s, events[0]), HintedRetries(SETUP, Next(SETUP, s, events[0]), events[1..]),
                  HintedBy(After(SETUP, s, events), e));
    }
  }

  lemma Coming(start: Sys, events: seq<Event>)
    requires Run(SETUP, start, events) && forall e :: e in events ==> Plain(e)
    ensures Comes(start, After(SETUP, start, events), HintedRetries(SETUP, start, events))
  {
  }

  lemma Extended(start: Sys, events: seq<Event>, e: Event)
    requires Run(SETUP, start, events) && Enabled(SETUP, After(SETUP, start, events), e) && Plain(e)
    requires forall e :: e in events ==> Plain(e)
    ensures var s := After(SETUP, start, events);
            Comes(start, Next(SETUP, s, e), HintedRetries(SETUP, start, events) + HintedBy(s, e))
  {
    OneMore(SETUP, start, events, e);
    HintedOneMore(start, events, e);
    Coming(start, events + [e]);
  }

  lemma Step(start: Sys, s: Sys, h: multiset<Id>, e: Event) returns (t: Sys)
    requires Comes(start, s, h) && Enabled(SETUP, s, e) && Plain(e)
    ensures t == Next(SETUP, s, e) && Comes(start, t, h + HintedBy(s, e))
  {
    var events :| Run(SETUP, start, events) && After(SETUP, start, events) == s && HintedRetries(SETUP, start, events) == h
                  && forall e :: e in events ==> Plain(e);
    Extended(start, events, e);
    t := Next(SETUP, s, e);
  }

  // The steps other than the write of a Retry.
  predicate WritesNoRetry(s: Sys, e: Event) {
    e.Write? ==> e.tid in s.threads && s.threads[e.tid].Writing? && !s.threads[e.tid].call.Retry?
  }

  lemma On(start: Sys, s: Sys, h: multiset<Id>, e: Event) returns (t: Sys)
    requires Comes(start, s, h) && Enabled(SETUP, s, e) && Plain(e) && WritesNoRetry(s, e)
    ensures t == Next(SETUP, s, e) && Comes(start, t, h)
  {
    t := Step(start, s, h, e);
    NoHint(s, e);
    assert h + multiset{} == h;
  }

  lemma NoHint(s: Sys, e: Event)
    requires WritesNoRetry(s, e)
    ensures HintedBy(s, e) == multiset{}
  {
  }

  // ----- A store that holds one job -----

  ghost predicate Holds(s: Sys, state: JobState) {
    && s.store.jobs.Keys == {0}
    && var j := s.store.jobs[0]; j.id == 0 && j.state == state && j.maxAttempts == 3 && 0 <= j.attempt
  }

  predicate Entries(jobs: seq<Job>) {
    forall j :: j in jobs ==> j.id == 0
  }

  // Nothing is in the fetcher's hand or in the pool's channel.
  predicate Calm(s: Sys) {
    s.fetched == None && s.poolCh == [] && Entries(s.jobCh) && |s.jobCh| < 9
  }

  lemma OnlyListing(s: Sys, state: JobState)
    requires Holds(s, state) && state.IsClaimable()
    ensures Listing(s.store, PendingFilter(10), AnyOrder, [s.store.jobs[0]])
  {
    ClaimableIsPendingFilter(s.store.jobs, 10);
    assert ClaimableIds(s.store.jobs) == {0};
    assert IdsOf([s.store.jobs[0]]) == {0};
  }

  // The schedule loop pushes one more entry for the job it has already scheduled.
  lemma PushAgain(start: Sys, s: Sys, h: multiset<Id>) returns (t: Sys)
    requires Comes(start, s, h) && Holds(s, Scheduled) && Calm(s) && s.sched == []
    ensures Comes(start, t, h) && Holds(t, Scheduled) && Calm(t.(jobCh := [])) && Entries(t.jobCh)
    ensures t == s.(jobCh := s.jobCh + [s.store.jobs[0]])
  {
    OnlyListing(s, Scheduled);
    var t1 := On(start, s, h, SchedRead([s.store.jobs[0]]));
    t := On(start, t1, h, SchedPush);
  }

  // The first entry reaches a worker.
  lemma Take(start: Sys, s: Sys, h: multiset<Id>, tid: Tid) returns (t: Sys)
    requires Comes(start, s, h) && Calm(s) && s.jobCh != [] && tid !in s.threads
    ensures Comes(start, t, h)
    ensures t == s.(jobCh := s.jobCh[1..], threads := s.threads[tid := Holding(s.jobCh[0])])
  {
    var t1 := On(start, s, h, Fetch);
    var t2 := On(start, t1, h, Forward);
    t := On(start, t2, h, Receive(tid));
    assert t.poolCh == [];
  }

  // A worker takes the first entry and claims the job.
  lemma TakeAndClaim(start: Sys, s: Sys, h: multiset<Id>, tid: Tid, state: JobState) returns (t: Sys)
    requires Comes(start, s, h) && Holds(s, state) && state.IsClaimable() && Calm(s)
    requires s.jobCh != [] && tid !in s.threads
    ensures Comes(start, t, h) && Holds(t, Running) && Calm(t)
    ensures t == s.(store := t.store, jobCh := s.jobCh[1..], threads := s.threads[tid := Executing(0)],
                    claims := s.claims + multiset{0})
    ensures t.store.jobs[0].attempt == s.store.jobs[0].attempt + 1
  {
    var t1 := Take(start, s, h, tid);
    t := On(start, t1, h, ClaimEntry(tid));
    ClaimTaken(s, t1, tid, state);
  }

  lemma ClaimTaken(s: Sys, t1: Sys, tid: Tid, state: JobState)
    requires Holds(s, state) && state.IsClaimable() && Calm(s) && s.jobCh != [] && tid !in s.threads
    requires t1 == s.(jobCh := s.jobCh[1..], threads := s.threads[tid := Holding(s.jobCh[0])])
    ensures var t := Claimed(SETUP, t1, tid, s.jobCh[0].id);
            && Holds(t, Running) && Calm(t) && t.store.jobs[0].attempt == s.store.jobs[0].attempt + 1
            && t == s.(store := t.store, jobCh := s.jobCh[1..], threads := s.threads[tid := Executing(0)],
                       claims := s.claims + multiset{0})
  {
    assert s.jobCh[0].id == 0;
    assert t1.threads[tid := Executing(0)] == s.threads[tid := Executing(0)];
  }

  // The handler fails; Fail reads the record and saves the result.
  lemma Report(start: Sys, s: Sys, h: multiset<Id>, tid: Tid, result: JobResult) returns (t: Sys)
    requires Comes(start, s, h) && 0 in s.store.jobs && tid in s.threads && s.threads[tid] == Executing(0)
    requires result.jobId == 0 && !result.success
    ensures Comes(start, t, h)
    ensures t == s.(store := SaveResult(s.store, result),
                    threads := s.threads[tid := Writing(Fail(result), s.store.jobs[0], s.now)])
  {
    var t1 := On(start, s, h, Finish(tid, result));
    t := On(start, t1, h, Save(tid));
    SavedAfter(s, tid, result);
  }

  lemma SavedAfter(s: Sys, tid: Tid, result: JobResult)
    requires 0 in s.store.jobs && result.jobId == 0 && !result.success
    ensures var t1 := Finished(s, tid, result);
            && t1.threads == s.threads[tid := Saving(result, s.store.jobs[0], s.now)]
            && Saved(t1, tid, t1.threads[tid]) ==
               s.(store := SaveResult(s.store, result),
                  threads := s.threads[tid := Writing(Fail(result), s.store.jobs[0], s.now)])
  {
    assert s.threads[tid := Saving(result, s.store.jobs[0], s.now)][tid := Writing(Fail(result), s.store.jobs[0], s.now)] ==
           s.threads[tid := Writing(Fail(result), s.store.jobs[0], s.now)];
  }

  // Then it writes what it makes of that.
  lemma Break(start: Sys, s: Sys, h: multiset<Id>, tid: Tid, state: JobState) returns (t: Sys)
    requires Comes(start, s, h) && Holds(s, state) && s.store.jobs[0].attempt < 3
    requires tid in s.threads && s.threads[tid] == Executing(0)
    ensures Comes(start, t, h) && Holds(t, Failed) && t.store.jobs[0].attempt == s.store.jobs[0].attempt
    ensures t == s.(store := t.store, threads := s.threads - {tid})
  {
    var t1 := Report(start, s, h, tid, BROKEN);
    t := On(start, t1, h, Write(tid, s.now, 0));
    Broken(s, t1, tid, state);
  }

  lemma Broken(s: Sys, t1: Sys, tid: Tid, state: JobState)
    requires Holds(s, state) && s.store.jobs[0].attempt < 3 && tid in s.threads
    requires t1 == s.(store := SaveResult(s.store, BROKEN),
                      threads := s.threads[tid := Writing(Fail(BROKEN), s.store.jobs[0], s.now)])
    ensures var t := Written(t1, tid, t1.threads[tid], s.now, 0);
            && Holds(t, Failed) && t.store.jobs[0].attempt == s.store.jobs[0].attempt
            && t == s.(store := t.store, threads := s.threads - {tid})
  {
    assert t1.threads - {tid} == s.threads - {tid};
  }

  // Retry reads the job ...
  lemma Reopening(start: Sys, s: Sys, h: multiset<Id>) returns (t: Sys)
    requires Comes(start, s, h) && Holds(s, Failed) && s.threads == map[]
    ensures Comes(start, t, h) && t == s.(threads := map[0 := Writing(Retry(true), s.store.jobs[0], s.now)])
  {
    t := On(start, s, h, Ask(0, 0, Retry(true)));
  }

  // ... and writes it; it finds an entry in hand if there is one.
  lemma Reopen(start: Sys, s: Sys, h: multiset<Id>) returns (t: Sys)
    requires Comes(start, s, h) && Holds(s, Failed) && s.threads == map[]
    ensures Comes(start, t, h + if 0 in Hints(s) then multiset{0} else multiset{})
    ensures Holds(t, Pending) && t.store.jobs[0].attempt == 0
    ensures t == s.(store := t.store, retries := s.retries + multiset{0})
  {
    var t1 := Reopening(start, s, h);
    SameHint(s, t1);
    t := Step(start, t1, h, Write(0, s.now, 0));
    Reopened(s, t1, t);
  }

  lemma Reopened(s: Sys, t1: Sys, t: Sys)
    requires Holds(s, Failed) && s.threads == map[]
    requires t1 == s.(threads := map[0 := Writing(Retry(true), s.store.jobs[0], s.now)])
    requires t == Written(t1, 0, t1.threads[0], s.now, 0)
    ensures Holds(t, Pending) && t.store.jobs[0].attempt == 0
    ensures t == s.(store := t.store, retries := s.retries + multiset{0})
  {
    assert t.threads == map[];
  }

  lemma SameHint(s: Sys, t1: Sys)
    requires Holds(s, Failed) && s.threads == map[]
    requires t1 == s.(threads := map[0 := Writing(Retry(true), s.store.jobs[0], s.now)])
    ensures HintedBy(t1, Write(0, s.now, 0)) == if 0 in Hints(s) then multiset{0} else multiset{}
  {
    assert HeldIds(t1.threads) == HeldIds(s.threads);
  }

  // The schedule loop marks the job it has read as Pending, whatever its state is now, and pushes it.
  lemma MarkAndPush(start: Sys, s: Sys, h: multiset<Id>, state: JobState) returns (t: Sys)
    requires Comes(start, s, h) && Holds(s, state) && Calm(s)
    requires |s.sched| == 1 && s.sched[0].id == 0 && s.sched[0].state == Pending
    ensures Comes(start, t, h) && Holds(t, Scheduled) && t.store.jobs[0].attempt == s.store.jobs[0].attempt
    ensures t == s.(store := t.store, sched := [], jobCh := s.jobCh + [s.sched[0].(state := Scheduled)])
  {
    var t1 := On(start, s, h, SchedMark);
    t := On(start, t1, h, SchedPush);
    assert t1.sched[1..] == [];
  }

  lemma PrepareSecond(start: Sys, s: Sys, h: multiset<Id>) returns (t: Sys)
    requires Comes(start, s, h) && Holds(s, Scheduled) && Calm(s) && s.sched == [] && |s.jobCh| <= 1
    ensures Comes(start, t, h) && Holds(t, Scheduled) && Calm(t)
    ensures t.store == s.store && t == s.(jobCh := t.jobCh) && |t.jobCh| == |s.jobCh| + 1
  {
    t := PushAgain(start, s, h);
  }

  // ----- A retry that finds an entry in hand: two claims -----

  ghost predicate Ready(s: Sys, n: nat) {
    && Holds(s, Failed) && Calm(s) && |s.jobCh| == 1 && s.sched == [] && s.threads == map[]
    && s.claims[0] == 1 + 2 * n && s.retries[0] == n
  }

  // Scheduled once, and listed by the schedule loop twice.
  lemma TwoEntries() returns (t: Sys)
    ensures Comes(INIT, t, multiset{}) && Holds(t, Scheduled) && t.store.jobs[0].attempt == 0 && Calm(t) && |t.jobCh| == 2
    ensures t.sched == [] && t.threads == map[] && t.claims == multiset{} && t.retries == multiset{}
  {
    var h: multiset<Id> := multiset{};
    NoStep(INIT);
    var t1 := On(INIT, INIT, h, Submit(JOB));
    assert Holds(t1, Pending);
    OnlyListing(t1, Pending);
    var t2 := On(INIT, t1, h, SchedRead([t1.store.jobs[0]]));
    var t3 := MarkAndPush(INIT, t2, h, Pending);
    t := PrepareSecond(INIT, t3, h);
  }

  lemma NoStep(s: Sys)
    ensures Comes(s, s, multiset{})
  {
    assert Run(SETUP, s, []) && After(SETUP, s, []) == s && HintedRetries(SETUP, s, []) == multiset{};
  }

  lemma FirstClaim() returns (t: Sys)
    ensures Comes(INIT, t, multiset{}) && Ready(t, 0)
  {
    var t1 := TwoEntries();
    var t2 := TakeAndClaim(INIT, t1, multiset{}, 0, Scheduled);
    t := Break(INIT, t2, multiset{}, 0, Running);
    assert t.threads == map[];
  }

  lemma EntryInHand(s: Sys)
    requires Calm(s) && s.jobCh != []
    ensures 0 in Hints(s)
  {
    assert s.jobCh[0] in s.jobCh && s.jobCh[0].id == 0;
  }

  // After Retry, an old entry is claimed before the schedule loop, which has read the job as Pending,
  // sets it to Scheduled under the running execution.
  lemma MarkedWhileRunning(s: Sys, h: multiset<Id>, n: nat) returns (t: Sys)
    requires Comes(INIT, s, h) && Ready(s, n)
    ensures Comes(INIT, t, h + multiset{0}) && Holds(t, Scheduled) && t.store.jobs[0].attempt == 1
    ensures Calm(t) && |t.jobCh| == 1 && t.sched == [] && t.threads == map[0 := Executing(0)]
    ensures t.claims[0] == 2 + 2 * n && t.retries[0] == n + 1
  {
    EntryInHand(s);
    var more := h + multiset{0};
    var t1 := Reopen(INIT, s, h);
    OnlyListing(t1, Pending);
    var t2 := On(INIT, t1, more, SchedRead([t1.store.jobs[0]]));
    var t3 := TakeAndClaim(INIT, t2, more, 0, Pending);
    t := MarkAndPush(INIT, t3, more, Running);
  }

  // The entry that the loop has pushed is then claimed as well: two executions at once.
  lemma TwoMore(s: Sys, h: multiset<Id>, n: nat) returns (t: Sys)
    requires Comes(INIT, s, h) && Ready(s, n)
    ensures Comes(INIT, t, h + multiset{0}) && Ready(t, n + 1)
  {
    var more := h + multiset{0};
    var t1 := MarkedWhileRunning(s, h, n);
    var t2 := PrepareSecond(INIT, t1, more);
    var t3 := TakeAndClaim(INIT, t2, more, 1, Scheduled);
    var t4 := Break(INIT, t3, more, 0, Running);
    t := Break(INIT, t4, more, 1, Failed);
    assert t.threads == map[];
  }

  lemma {:induction false} Reached(n: nat) returns (t: Sys, h: multiset<Id>)
    ensures Comes(INIT, t, h) && h[0] == n && Ready(t, n)
  {
    if n == 0 {
      t := FirstClaim();
      h := multiset{};
    } else {
      var s, g := Reached(n - 1);
      t := TwoMore(s, g, n - 1);
      h := g + multiset{0};
    }
  }

  // ----- A retry that finds none: one claim -----

  ghost predicate Bare(s: Sys, claims: nat, retries: nat) {
    && Holds(s, Failed) && Calm(s) && s.jobCh == [] && s.sched == [] && s.threads == map[]
    && s.claims[0] == claims && s.retries[0] == retries
  }

  // A worker takes the spare entry and fails to claim the job.
  lemma SpareEntry(s: Sys, h: multiset<Id>, n: nat) returns (t: Sys)
    requires Comes(INIT, s, h) && Ready(s, n)
    ensures Comes(INIT, t, h) && Bare(t, 1 + 2 * n, n)
  {
    assert s.jobCh[0].id == 0;
    var t1 := Take(INIT, s, h, 0);
    t := On(INIT, t1, h, ClaimEntry(0));
    assert t.threads == map[] && t.store == s.store;
  }

  lemma NoEntryInHand(s: Sys)
    requires Calm(s) && s.jobCh == [] && s.sched == [] && s.threads == map[]
    ensures Hints(s) == {}
  {
  }

  lemma ScheduledAgain(s: Sys, h: multiset<Id>) returns (t: Sys)
    requires Comes(INIT, s, h) && Holds(s, Failed) && Calm(s) && s.jobCh == [] && s.sched == [] && s.threads == map[]
    ensures Comes(INIT, t, h) && Holds(t, Scheduled) && t.store.jobs[0].attempt == 0 && Calm(t) && |t.jobCh| == 1
    ensures t == s.(store := t.store, retries := s.retries + multiset{0}, jobCh := t.jobCh)
  {
    NoEntryInHand(s);
    assert h + multiset{} == h;
    var t1 := Reopen(INIT, s, h);
    OnlyListing(t1, Pending);
    var t2 := On(INIT, t1, h, SchedRead([t1.store.jobs[0]]));
    t := MarkAndPush(INIT, t2, h, Pending);
  }

  lemma OneMoreClaim(s: Sys, h: multiset<Id>, claims: nat, retries: nat) returns (t: Sys)
    requires Comes(INIT, s, h) && Bare(s, claims, retries)
    ensures Comes(INIT, t, h) && Bare(t, claims + 1, retries + 1)
  {
    var t1 := ScheduledAgain(s, h);
    var t2 := TakeAndClaim(INIT, t1, h, 0, Scheduled);
    t := Break(INIT, t2, h, 0, Running);
    assert t.threads == map[];
  }

  lemma {:induction false} RetriedFurther(s: Sys, h: multiset<Id>, claims: nat, retries: nat, more: nat) returns (t: Sys)
    requires Comes(INIT, s, h) && Bare(s, claims, retries)
    ensures Comes(INIT, t, h) && Bare(t, claims + more, retries + more)
    decreases more
  {
    if more == 0 {
      t := s;
    } else {
      var t1 := OneMoreClaim(s, h, claims, retries);
      t := RetriedFurther(t1, h, claims + 1, retries + 1, more - 1);
    }
  }

  // No smaller bound would hold: for every number of retries and every number of them that find an entry in
  // hand, here is a run with so many that reaches it, without a crash, a recovery, a cancel or a removal.
  lemma BoundIsReached(retries: nat, hinted: nat) returns (events: seq<Event>)
    requires hinted <= retries
    ensures Run(SETUP, INIT, events) && forall e :: e in events ==> Plain(e)
    ensures var end := After(SETUP, INIT, events);
            && end.retries[0] == retries && HintedRetries(SETUP, INIT, events)[0] == hinted
            && end.claims[0] == 1 + retries + hinted
  {
    var s, h := Reached(hinted);
    var t := SpareEntry(s, h, hinted);
    t := RetriedFurther(t, h, 1 + 2 * hinted, hinted, retries - hinted);
    events :| Run(SETUP, INIT, events) && After(SETUP, INIT, events) == t && HintedRetries(SETUP, INIT, events) == h
              && forall e :: e in events ==> Plain(e);
  }
}
