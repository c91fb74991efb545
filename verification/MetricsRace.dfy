// What any interleaving of RecordJobCompleted calls leaves in the collector, and how long it takes.
module MetricsRace {
  import opened Metrics

  // ----- Each thread's own call, and the counters -----

  predicate SameCalls(s: Sys, calls: seq<Call>) {
    |s.threads| == |calls| && forall i :: 0 <= i < |calls| ==> s.threads[i].call == calls[i]
  }

  predicate CountersAddUp(s: Sys, c: Counters) {
    && s.c.completed == c.completed + Sum(Succeeded, s.threads)
    && s.c.failed == c.failed + Sum(Errored, s.threads)
    && s.c.jobCount == c.jobCount + Sum(Counted, s.threads)
    && s.c.totalDuration == Wrap(c.totalDuration + Sum(Added, s.threads))
  }

  lemma StepSum(f: Thread -> int, s: Sys, i: nat)
    requires Enabled(s, i)
    ensures Sum(f, Step(s, i).threads) == Sum(f, s.threads) - f(s.threads[i]) + f(Step(s, i).threads[i])
  {
    SumUpdate(f, s.threads, i, Step(s, i).threads[i]);
    assert Step(s, i).threads == s.threads[i := Step(s, i).threads[i]];
  }

  lemma TotalStep(s: Sys, i: nat, total: int)
    requires Enabled(s, i) && s.c.totalDuration == Wrap(total + Sum(Added, s.threads))
    ensures Step(s, i).c.totalDuration == Wrap(total + Sum(Added, Step(s, i).threads))
  {
    StepSum(Added, s, i);
    WrapAdds(total + Sum(Added, s.threads), s.threads[i].call.duration);
  }

  lemma CountersStep(s: Sys, i: nat, c: Counters)
    requires Enabled(s, i) && CountersAddUp(s, c)
    ensures CountersAddUp(Step(s, i), c)
  {
    TotalStep(s, i, c.totalDuration);
    StepSum(Succeeded, s, i);
    StepSum(Errored, s, i);
    StepSum(Counted, s, i);
  }

  // ----- The maximum -----

  predicate MaximumIsReal(s: Sys, m: int) {
    && m <= s.c.maxDuration
    && (s.c.maxDuration == m || exists i :: 0 <= i < |s.threads| && s.threads[i].call.duration == s.c.maxDuration)
    && forall i :: 0 <= i < |s.threads| && s.threads[i].pc == AtEnd ==> s.threads[i].call.duration <= s.c.maxDuration
  }

  predicate LoadsAreOld(s: Sys) {
    forall i :: 0 <= i < |s.threads| && s.threads[i].pc.AtSwap? ==> s.threads[i].pc.current <= s.c.maxDuration
  }

  lemma MaximumStep(s: Sys, i: nat, m: int)
    requires Enabled(s, i) && MaximumIsReal(s, m) && LoadsAreOld(s)
    ensures MaximumIsReal(Step(s, i), m) && LoadsAreOld(Step(s, i))
    ensures s.c.maxDuration <= Step(s, i).c.maxDuration
  {
    var s' := Step(s, i);
    assert forall k :: 0 <= k < |s.threads| ==> s'.threads[k].call == s.threads[k].call;
  }

  // ----- Failed swaps -----

  // A load is stale only if a swap has succeeded since; a thread fails at most once for each.
  predicate FailsAreCharged(s: Sys, t: Thread) {
    match t.pc
    case AtSwap(current, seen) => t.fails <= seen <= s.wins && (current != s.c.maxDuration ==> seen < s.wins)
    case AtEnd => true
    case _ => t.fails <= s.wins
  }

  predicate WinsAreBounded(s: Sys) {
    && (forall i :: 0 <= i < |s.threads| ==> FailsAreCharged(s, s.threads[i]))
    && s.wins <= Sum(Ended, s.threads)
    && 2 * Sum(EndedFails, s.threads) <= Sum(Ended, s.threads) * (Sum(Ended, s.threads) - 1)
  }

  lemma ChargesStep(s: Sys, i: nat)
    requires Enabled(s, i) && LoadsAreOld(s)
    requires forall k :: 0 <= k < |s.threads| ==> FailsAreCharged(s, s.threads[k])
    ensures forall k :: 0 <= k < |s.threads| ==> FailsAreCharged(Step(s, i), Step(s, i).threads[k])
  {
    forall k | 0 <= k < |s.threads| ensures FailsAreCharged(Step(s, i), Step(s, i).threads[k]) {
      assert FailsAreCharged(s, s.threads[k]) && FailsAreCharged(s, s.threads[i]);
    }
  }

  lemma OneMoreEnd(e: int, total: int, fails: int)
    requires 0 <= fails <= e && 2 * total <= e * (e - 1)
    ensures 2 * (total + fails) <= (e + 1) * e
  {
    assert (e + 1) * e == e * (e - 1) + 2 * e;
  }

  lemma WinsStep(s: Sys, i: nat)
    requires Enabled(s, i) && LoadsAreOld(s) && WinsAreBounded(s)
    ensures WinsAreBounded(Step(s, i))
  {
    ChargesStep(s, i);
    var t := Step(s, i).threads[i];
    StepSum(Ended, s, i);
    StepSum(EndedFails, s, i);
    assert FailsAreCharged(s, s.threads[i]);
    if t.pc == AtEnd {
      OneMoreEnd(Sum(Ended, s.threads), Sum(EndedFails, s.threads), t.fails);
    }
  }

  // ----- Runs -----

  ghost predicate Inv(s: Sys, c: Counters, calls: seq<Call>) {
    && SameCalls(s, calls) && CountersAddUp(s, c)
    && MaximumIsReal(s, c.maxDuration) && LoadsAreOld(s) && WinsAreBounded(s)
  }

  lemma {:induction false} NothingYet(calls: seq<Call>, ts: seq<Thread>)
    requires forall t :: t in ts ==> t.pc == AtOutcome && t.fails == 0
    ensures Sum(Succeeded, ts) == Sum(Errored, ts) == Sum(Counted, ts) == Sum(Added, ts) == 0
    ensures Sum(Ended, ts) == Sum(EndedFails, ts) == Sum(Fails, ts) == Sum(Taken, ts) == 0
  {
    if ts != [] {
      NothingYet(calls, ts[..|ts| - 1]);
    }
  }

  lemma InitInv(c: Counters, calls: seq<Call>)
    requires Wrap(c.totalDuration) == c.totalDuration
    ensures Inv(Init(c, calls), c, calls)
  {
    NothingYet(calls, Init(c, calls).threads);
  }

  lemma TakenStep(s: Sys, i: nat)
    requires Enabled(s, i)
    ensures Sum(Taken, Step(s, i).threads) == Sum(Taken, s.threads) + 1
  {
    StepSum(Taken, s, i);
  }

  lemma CallsStep(s: Sys, i: nat, calls: seq<Call>)
    requires Enabled(s, i) && SameCalls(s, calls)
    ensures SameCalls(Step(s, i), calls)
  {}

  // One step, its price, and the maximum before and after it.
  lemma StepInv(s: Sys, i: nat, c: Counters, calls: seq<Call>)
    requires Enabled(s, i) && Inv(s, c, calls)
    ensures Inv(Step(s, i), c, calls)
    ensures Sum(Taken, Step(s, i).threads) == Sum(Taken, s.threads) + 1
    ensures s.c.maxDuration <= Step(s, i).c.maxDuration
  {
    CountersStep(s, i, c);
    MaximumStep(s, i, c.maxDuration);
    WinsStep(s, i);
    TakenStep(s, i);
    CallsStep(s, i, calls);
  }

  lemma {:induction false} RunInv(s: Sys, schedule: seq<nat>, c: Counters, calls: seq<Call>)
    requires Run(s, schedule) && Inv(s, c, calls)
    ensures Inv(After(s, schedule), c, calls)
    ensures Sum(Taken, After(s, schedule).threads) == Sum(Taken, s.threads) + |schedule|
    ensures s.c.maxDuration <= After(s, schedule).c.maxDuration
    decreases |schedule|
  {
    if schedule != [] {
      StepInv(s, schedule[0], c, calls);
      RunInv(Step(s, schedule[0]), schedule[1..], c, calls);
    }
  }

  // ----- How long it takes -----

  // A thread that has not ended has failed at most once per swap that succeeded.
  function FailsBound(t: Thread, wins: int): int {
    if t.pc == AtEnd then t.fails else wins
  }

  lemma {:induction false} SplitBound(ts: seq<Thread>, wins: int)
    ensures Sum((t: Thread) => FailsBound(t, wins), ts) == Sum(EndedFails, ts) + wins * (|ts| - Sum(Ended, ts))
    ensures 0 <= Sum(Ended, ts) <= |ts|
  {
    if ts != [] {
      SplitBound(ts[..|ts| - 1], wins);
      var f := (t: Thread) => FailsBound(t, wins);
      assert Sum(f, ts) == Sum(f, ts[..|ts| - 1]) + f(ts[|ts| - 1]);
    }
  }

  lemma Triangle(n: int, e: int, wins: int, ended: int)
    requires 0 <= wins <= e <= n && 2 * ended <= e * (e - 1)
    ensures 2 * (ended + wins * (n - e)) <= n * (n - 1)
  {
    assert wins * (n - e) <= e * (n - e) by {
      assert (e - wins) * (n - e) >= 0;
    }
    assert n * (n - 1) - e * (e - 1) - 2 * (e * (n - e)) == (n - e) * (n - e) - (n - e);
    assert (n - e) * (n - e) >= n - e by {
      if n - e >= 1 {
        assert (n - e) * (n - e) >= (n - e) * 1;
      }
    }
  }

  lemma {:induction false} TakenSplit(ts: seq<Thread>)
    ensures Sum(Taken, ts) <= 5 * |ts| + 2 * Sum(Fails, ts)
  {
    if ts != [] {
      TakenSplit(ts[..|ts| - 1]);
    }
  }

  lemma FailsAreFew(s: Sys)
    requires WinsAreBounded(s) && s.wins >= 0
    ensures 2 * Sum(Fails, s.threads) <= |s.threads| * (|s.threads| - 1)
  {
    var bound := (t: Thread) => FailsBound(t, s.wins);
    forall t | t in s.threads ensures Fails(t) <= bound(t) {
      var i :| 0 <= i < |s.threads| && s.threads[i] == t;
      assert FailsAreCharged(s, s.threads[i]);
    }
    SumBound(Fails, bound, s.threads);
    SplitBound(s.threads, s.wins);
    Triangle(|s.threads|, Sum(Ended, s.threads), s.wins, Sum(EndedFails, s.threads));
  }

  // The loops end: n racing calls fail at most n(n - 1)/2 swaps between them, so no schedule is
  // longer than n(n + 4) operations.
  lemma RaceIsShort(c: Counters, calls: seq<Call>, schedule: seq<nat>)
    requires Wrap(c.totalDuration) == c.totalDuration
    requires Run(Init(c, calls), schedule)
    ensures var n := |calls|;
            && 2 * Sum(Fails, After(Init(c, calls), schedule).threads) <= n * (n - 1)
            && |schedule| <= n * (n + 4)
  {
    InitInv(c, calls);
    RunInv(Init(c, calls), schedule, c, calls);
    NothingYet(calls, Init(c, calls).threads);
    var end := After(Init(c, calls), schedule);
    FailsAreFew(end);
    TakenSplit(end.threads);
    var n := |calls|;
    assert n * (n + 4) == n * (n - 1) + 5 * n;
  }

  // The maximum never goes down.
  lemma MaximumOnlyGrows(c: Counters, calls: seq<Call>, before: seq<nat>, later: seq<nat>)
    requires Wrap(c.totalDuration) == c.totalDuration
    requires Run(Init(c, calls), before) && Run(After(Init(c, calls), before), later)
    ensures After(Init(c, calls), before).c.maxDuration <= After(After(Init(c, calls), before), later).c.maxDuration
  {
    InitInv(c, calls);
    RunInv(Init(c, calls), before, c, calls);
    RunInv(After(Init(c, calls), before), later, c, calls);
  }

  // ----- What is left when every call has returned -----

  lemma {:induction false} SumsOfEnded(c: Counters, ts: seq<Thread>, calls: seq<Call>)
    requires |ts| == |calls| && forall i :: 0 <= i < |ts| ==> ts[i].pc == AtEnd && ts[i].call == calls[i]
    requires Wrap(c.totalDuration) == c.totalDuration
    ensures var r := RecordAll(c, calls);
            && r.completed == c.completed + Sum(Succeeded, ts) && r.failed == c.failed + Sum(Errored, ts)
            && r.jobCount == c.jobCount + Sum(Counted, ts)
            && r.totalDuration == Wrap(c.totalDuration + Sum(Added, ts))
            && Sum(Counted, ts) == Sum(Succeeded, ts) + Sum(Errored, ts) == |ts|
  {
    if ts != [] {
      var n := |ts| - 1;
      SumsOfEnded(c, ts[..n], calls[..n]);
      WrapAdds(c.totalDuration + Sum(Added, ts[..n]), calls[n].duration);
    }
  }

  // Two values that are both the largest of the same durations.
  lemma SameMaximum(end: Sys, c: Counters, calls: seq<Call>)
    requires SameCalls(end, calls) && Quiescent(end) && MaximumIsReal(end, c.maxDuration)
    ensures end.c.maxDuration == RecordAll(c, calls).maxDuration
  {
    MaximumOfAll(c, calls);
    var m := RecordAll(c, calls).maxDuration;
    if m != c.maxDuration {
      var i :| 0 <= i < |calls| && calls[i].duration == m;
      assert end.threads[i] in end.threads;
    }
    if end.c.maxDuration != c.maxDuration {
      var i :| 0 <= i < |calls| && end.threads[i].call.duration == end.c.maxDuration;
      assert calls[i] in calls;
    }
  }

  lemma SameCounters(end: Sys, c: Counters, calls: seq<Call>)
    requires Wrap(c.totalDuration) == c.totalDuration
    requires SameCalls(end, calls) && Quiescent(end) && CountersAddUp(end, c)
    ensures end.c.(maxDuration := 0) == RecordAll(c, calls).(maxDuration := 0)
  {
    forall i | 0 <= i < |calls| ensures end.threads[i].pc == AtEnd {
      assert end.threads[i] in end.threads;
    }
    SumsOfEnded(c, end.threads, calls);
  }

  // Whatever the interleaving, the collector ends as if the calls had come one after the other.
  lemma RaceEndsAsSequential(c: Counters, calls: seq<Call>, schedule: seq<nat>)
    requires Wrap(c.totalDuration) == c.totalDuration
    requires Run(Init(c, calls), schedule) && Quiescent(After(Init(c, calls), schedule))
    ensures After(Init(c, calls), schedule).c == RecordAll(c, calls)
  {
    InitInv(c, calls);
    RunInv(Init(c, calls), schedule, c, calls);
    SameMaximum(After(Init(c, calls), schedule), c, calls);
    SameCounters(After(Init(c, calls), schedule), c, calls);
  }

  // At quiescence: every job counted once, as completed or failed, and for durations whose sum is an
  // int64 the average that GetMetrics reports is at most the maximum.
  lemma AverageIsAtMostMaximum(calls: seq<Call>, schedule: seq<nat>)
    requires Run(Init(ZERO, calls), schedule) && Quiescent(After(Init(ZERO, calls), schedule))
    requires forall call :: call in calls ==> call.duration >= 0
    requires Durations(calls) < INT64_SPAN / 2
    ensures var c := After(Init(ZERO, calls), schedule).c;
            && c.jobCount == |calls| == c.completed + c.failed
            && c.totalDuration == Durations(calls)
            && (c.jobCount > 0 ==> Quotient(c.totalDuration, c.jobCount) <= c.maxDuration)
  {
    RaceEndsAsSequential(ZERO, calls, schedule);
    MeanOfAll(calls);
  }
}
