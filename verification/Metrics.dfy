// The metrics collector: its counters, and any number of RecordJobCompleted calls racing on them
// with a compare-and-swap maximum (observability/metrics.go).
module Metrics {
  import opened Core

  // ----- The collector, one call at a time -----

  const INT64_SPAN: int := 0x1_0000_0000_0000_0000

  // The int64 that an addition leaves.
  function Wrap(x: int): int {
    (x + INT64_SPAN / 2) % INT64_SPAN - INT64_SPAN / 2
  }

  // It is an int64, and differs from the sum by a multiple of 2^64.
  lemma WrapIsInt64(x: int)
    ensures -0x8000_0000_0000_0000 <= Wrap(x) < 0x8000_0000_0000_0000
    ensures (x - Wrap(x)) % 0x1_0000_0000_0000_0000 == 0
  {
    var h := INT64_SPAN / 2;
    assert x - Wrap(x) == (x + h) / INT64_SPAN * INT64_SPAN;
    ModShift(0, (x + h) / INT64_SPAN);
  }

  datatype Counters = Counters(completed: nat, failed: nat, jobCount: nat, totalDuration: int, maxDuration: int)

  const ZERO := Counters(0, 0, 0, 0, 0)

  datatype Call = Call(duration: int, success: bool)

  function Max(a: int, b: int): int {
    if a < b then b else a
  }

  // What one finished call has done.
  function Recorded(c: Counters, call: Call): Counters {
    Counters(c.completed + One(call.success), c.failed + One(!call.success), c.jobCount + 1,
             Wrap(c.totalDuration + call.duration), Max(c.maxDuration, call.duration))
  }

  datatype Metrics = Metrics(enqueued: nat, completed: nat, failed: nat, retried: nat, byType: map<string, nat>,
                             average: int, maximum: int)

  // Go's division, towards zero.
  function Quotient(a: int, b: int): int
    requires b > 0
  {
    if a >= 0 then a / b else -((-a) / b)
  }

  // ----- Calls one after the other -----

  // What they leave.
  function RecordAll(c: Counters, calls: seq<Call>): Counters {
    if calls == [] then c else Recorded(RecordAll(c, calls[..|calls| - 1]), calls[|calls| - 1])
  }

  function Successes(calls: seq<Call>): nat {
    if calls == [] then 0 else Successes(calls[..|calls| - 1]) + One(calls[|calls| - 1].success)
  }

  lemma {:induction false} MaximumOfAll(c: Counters, calls: seq<Call>)
    ensures var m := RecordAll(c, calls).maxDuration;
            && c.maxDuration <= m && (forall call :: call in calls ==> call.duration <= m)
            && (m == c.maxDuration || exists i :: 0 <= i < |calls| && calls[i].duration == m)
  {
    if calls != [] {
      var n := |calls| - 1;
      MaximumOfAll(c, calls[..n]);
      assert calls == calls[..n] + [calls[n]];
      assert calls[n].duration == calls[n].duration;
    }
  }

  function Durations(calls: seq<Call>): int {
    if calls == [] then 0 else Durations(calls[..|calls| - 1]) + calls[|calls| - 1].duration
  }

  lemma {:induction false} CountsFromZero(calls: seq<Call>)
    ensures var r := RecordAll(ZERO, calls);
            && r.jobCount == |calls| == r.completed + r.failed && r.completed == Successes(calls)
            && r.totalDuration == Wrap(Durations(calls))
  {
    if calls != [] {
      var n := |calls| - 1;
      CountsFromZero(calls[..n]);
      WrapAdds(Durations(calls[..n]), calls[n].duration);
    }
  }

  lemma OneMore(n: int, total: int, duration: int, m: int, larger: int)
    requires n >= 0 && total <= n * m && duration <= larger && m <= larger
    ensures total + duration <= (n + 1) * larger
  {
    assert n * (larger - m) >= 0;
  }

  lemma {:induction false} SumUnderMaximum(calls: seq<Call>)
    requires forall call :: call in calls ==> call.duration >= 0
    ensures 0 <= Durations(calls) <= |calls| * RecordAll(ZERO, calls).maxDuration
  {
    if calls != [] {
      var n := |calls| - 1;
      SumUnderMaximum(calls[..n]);
      OneMore(n, Durations(calls[..n]), calls[n].duration,
              RecordAll(ZERO, calls[..n]).maxDuration, RecordAll(ZERO, calls).maxDuration);
    }
  }

  lemma Larger(n: int, a: int, b: int)
    requires n > 0 && a > b
    ensures n * a >= n * b + n
  {
    assert n * (a - b - 1) >= 0;
    assert n * (a - b - 1) == n * a - n * b - n;
  }

  lemma MeanUnderMaximum(total: int, n: int, m: int)
    requires n > 0 && 0 <= total <= n * m
    ensures Quotient(total, n) <= m
  {
    if total / n > m {
      Larger(n, total / n, m);
    }
  }

  lemma MeanBrackets(total: int, n: int, q: int)
    requires n > 0 && total >= 0 && q == total / n
    ensures q * n <= total < (q + 1) * n && q >= 0
  {
    var r := total % n;
    assert total == n * q + r;
    assert (q + 1) * n == n * q + n;
  }

  // The quotient of a negative number is rounded up.
  lemma QuotientBrackets(total: int, n: int)
    requires n > 0
    ensures var q := Quotient(total, n);
            && (total >= 0 ==> q * n <= total < (q + 1) * n)
            && (total < 0 ==> (q - 1) * n < total <= q * n)
  {
    if total >= 0 {
      MeanBrackets(total, n, total / n);
    } else {
      var p := (-total) / n;
      MeanBrackets(-total, n, p);
      assert (-p) * n == -(p * n) && (-p - 1) * n == -((p + 1) * n);
    }
  }

  lemma MeanOfAll(calls: seq<Call>)
    requires forall call :: call in calls ==> call.duration >= 0
    requires Durations(calls) < INT64_SPAN / 2
    ensures var c := RecordAll(ZERO, calls);
            && c.jobCount == |calls| == c.completed + c.failed
            && c.totalDuration == Durations(calls)
            && (c.jobCount > 0 ==> Quotient(c.totalDuration, c.jobCount) <= c.maxDuration)
  {
    CountsFromZero(calls);
    SumUnderMaximum(calls);
    SmallStays(Durations(calls));
    if calls != [] {
      MeanUnderMaximum(Durations(calls), |calls|, RecordAll(ZERO, calls).maxDuration);
    }
  }

  lemma SmallStays(x: int)
    requires 0 <= x < INT64_SPAN / 2
    ensures Wrap(x) == x
  {
  }

  // The average over a non-empty history of durations that an int64 can sum.
  lemma MeanReported(calls: seq<Call>)
    requires calls != [] && forall call :: call in calls ==> call.duration >= 0
    requires Durations(calls) < INT64_SPAN / 2
    ensures var c := RecordAll(ZERO, calls);
            && c.jobCount == |calls|
            && var q := Quotient(c.totalDuration, c.jobCount);
               0 <= q <= c.maxDuration && q * |calls| <= Durations(calls) < (q + 1) * |calls|
  {
    MeanOfAll(calls);
    SumUnderMaximum(calls);
    MeanBrackets(Durations(calls), |calls|, Durations(calls) / |calls|);
  }

  lemma WrapAdds(x: int, d: int)
    ensures Wrap(Wrap(x) + d) == Wrap(x + d)
  {
    var h := INT64_SPAN / 2;
    assert (x + h) == (x + h) / INT64_SPAN * INT64_SPAN + (x + h) % INT64_SPAN;
    ModShift((x + h) % INT64_SPAN + d, (x + h) / INT64_SPAN);
  }

  lemma ModShift(y: int, k: int)
    ensures (y + k * INT64_SPAN) % INT64_SPAN == y % INT64_SPAN
  {
    var q, r := y / INT64_SPAN, y % INT64_SPAN;
    assert y + k * INT64_SPAN == (q + k) * INT64_SPAN + r;
  }

  class SimpleMetrics {
    var enqueued: nat
    var completed: nat
    var failed: nat
    var retried: nat
    var totalDuration: int
    var maxDuration: int
    var jobCount: nat
    var byType: map<string, nat>
    ghost var calls: seq<Call>  // what has been recorded

    ghost predicate Valid()
      reads this
    {
      Shared() == RecordAll(ZERO, calls)
    }

    function Shared(): Counters
      reads this
    {
      Counters(completed, failed, jobCount, totalDuration, maxDuration)
    }

    constructor ()
      ensures Valid() && calls == [] && enqueued == 0 && retried == 0 && byType == map[]
    {
      calls := [];
      enqueued, completed, failed, retried := 0, 0, 0, 0;
      totalDuration, maxDuration, jobCount := 0, 0, 0;
      byType := map[];
    }

    method RecordJobEnqueued(jobType: string)
      modifies this`enqueued, this`byType
      ensures enqueued == old(enqueued) + 1
      ensures byType == old(byType)[jobType := 1 + if jobType in old(byType) then old(byType)[jobType] else 0]
    {
      enqueued := enqueued + 1;
      byType := byType[jobType := (if jobType in byType then byType[jobType] else 0) + 1];
    }

    // With nobody else writing, the swap succeeds the first time.
    method RecordJobCompleted(duration: int, success: bool)
      requires Valid()
      modifies this`completed, this`failed, this`jobCount, this`totalDuration, this`maxDuration, this`calls
      ensures Valid() && calls == old(calls) + [Call(duration, success)]
      ensures Shared() == Recorded(old(Shared()), Call(duration, success))
    {
      if success {
        completed := completed + 1;
      } else {
        failed := failed + 1;
      }
      jobCount := jobCount + 1;
      totalDuration := Wrap(totalDuration + duration);
      var settled := false;
      while !settled
        invariant calls == old(calls)
        invariant Shared() == Recorded(old(Shared()), Call(duration, success)).(maxDuration := maxDuration)
        invariant maxDuration == if settled then Max(old(maxDuration), duration) else old(maxDuration)
        decreases if settled then 0 else 1
      {
        var current := maxDuration;
        if duration <= current {
          settled := true;
        } else if maxDuration == current {
          maxDuration := duration;
          settled := true;
        }
      }
      calls := calls + [Call(duration, success)];
      assert calls[..|calls| - 1] == old(calls);
    }

    method RecordJobRetry()
      modifies this`retried
      ensures retried == old(retried) + 1
    {
      retried := retried + 1;
    }

    // What is reported, in terms of the calls recorded: how many succeeded and failed, the largest
    // duration, and the mean, which is at most that.
    method GetMetrics() returns (m: Metrics)
      requires Valid()
      ensures m == Metrics(enqueued, completed, failed, retried, byType, m.average, maxDuration)
      ensures m.completed == Successes(calls) && m.completed + m.failed == |calls|
      ensures forall call :: call in calls ==> call.duration <= m.maximum
      ensures m.maximum == 0 || exists i :: 0 <= i < |calls| && calls[i].duration == m.maximum
      ensures calls == [] ==> m.average == 0
      ensures calls != [] && totalDuration >= 0 ==> m.average * |calls| <= totalDuration < (m.average + 1) * |calls|
      ensures calls != [] && totalDuration < 0 ==> (m.average - 1) * |calls| < totalDuration <= m.average * |calls|
      ensures calls != [] && (forall call :: call in calls ==> call.duration >= 0) && Durations(calls) < INT64_SPAN / 2 ==>
                && m.average * |calls| <= Durations(calls) < (m.average + 1) * |calls|
                && 0 <= m.average <= m.maximum
    {
      var average := 0;
      CountsFromZero(calls);
      MaximumOfAll(ZERO, calls);
      if jobCount > 0 {
        average := Quotient(totalDuration, jobCount);
        QuotientBrackets(totalDuration, jobCount);
        if (forall call :: call in calls ==> call.duration >= 0) && Durations(calls) < INT64_SPAN / 2 {
          MeanReported(calls);
        }
      }
      m := Metrics(enqueued, completed, failed, retried, byType, average, maxDuration);
    }
  }

  // ----- Racing calls: one atomic operation per step -----

  datatype Pc =
    | AtOutcome
    | AtCount
    | AtTotal
    | AtLoad
    | AtSwap(current: int, winsSeen: nat)  // winsSeen: swaps that had succeeded when `current` was loaded
    | AtEnd

  datatype Thread = Thread(call: Call, pc: Pc, fails: nat)

  datatype Sys = Sys(c: Counters, threads: seq<Thread>, wins: nat)

  function Init(c: Counters, calls: seq<Call>): Sys {
    Sys(c, seq(|calls|, i requires 0 <= i < |calls| => Thread(calls[i], AtOutcome, 0)), 0)
  }

  predicate Enabled(s: Sys, i: nat) {
    i < |s.threads| && s.threads[i].pc != AtEnd
  }

  // The next atomic operation of thread i.
  function Step(s: Sys, i: nat): Sys
    requires Enabled(s, i)
  {
    var t := s.threads[i];
    match t.pc
    case AtOutcome =>
      Moved(s, i, t.(pc := AtCount),
            s.c.(completed := s.c.completed + One(t.call.success), failed := s.c.failed + One(!t.call.success)))
    case AtCount => Moved(s, i, t.(pc := AtTotal), s.c.(jobCount := s.c.jobCount + 1))
    case AtTotal =>
      Moved(s, i, t.(pc := AtLoad), s.c.(totalDuration := Wrap(s.c.totalDuration + t.call.duration)))
    case AtLoad => Moved(s, i, t.(pc := AtSwap(s.c.maxDuration, s.wins)), s.c)
    case AtSwap(current, _) =>
      if t.call.duration <= current then Moved(s, i, t.(pc := AtEnd), s.c)
      else if s.c.maxDuration == current then
        Moved(s, i, t.(pc := AtEnd), s.c.(maxDuration := t.call.duration)).(wins := s.wins + 1)
      else Moved(s, i, t.(pc := AtLoad, fails := t.fails + 1), s.c)
    case AtEnd => s
  }

  function Moved(s: Sys, i: nat, t: Thread, c: Counters): Sys
    requires i < |s.threads|
  {
    s.(threads := s.threads[i := t], c := c)
  }

  predicate Run(s: Sys, schedule: seq<nat>)
    decreases |schedule|
  {
    schedule == [] || (Enabled(s, schedule[0]) && Run(Step(s, schedule[0]), schedule[1..]))
  }

  function After(s: Sys, schedule: seq<nat>): Sys
    requires Run(s, schedule)
    decreases |schedule|
  {
    if schedule == [] then s else After(Step(s, schedule[0]), schedule[1..])
  }

  predicate Quiescent(s: Sys) {
    forall t :: t in s.threads ==> t.pc == AtEnd
  }

  // ----- Sums over the threads -----

  function Sum(f: Thread -> int, ts: seq<Thread>): int {
    if ts == [] then 0 else Sum(f, ts[..|ts| - 1]) + f(ts[|ts| - 1])
  }

  lemma {:induction false} SumUpdate(f: Thread -> int, ts: seq<Thread>, i: nat, t: Thread)
    requires i < |ts|
    ensures Sum(f, ts[i := t]) == Sum(f, ts) - f(ts[i]) + f(t)
  {
    var n := |ts| - 1;
    if i == n {
      assert ts[i := t][..n] == ts[..n];
    } else {
      SumUpdate(f, ts[..n], i, t);
      assert ts[i := t][..n] == ts[..n][i := t];
    }
  }

  lemma {:induction false} SumBound(f: Thread -> int, g: Thread -> int, ts: seq<Thread>)
    requires forall t :: t in ts ==> f(t) <= g(t)
    ensures Sum(f, ts) <= Sum(g, ts)
  {
    if ts != [] {
      SumBound(f, g, ts[..|ts| - 1]);
    }
  }

  // How far a thread has got.
  function Stage(t: Thread): nat {
    match t.pc
    case AtOutcome => 0
    case AtCount => 1
    case AtTotal => 2
    case AtLoad => 3
    case AtSwap(_, _) => 4
    case AtEnd => 5
  }

  function Succeeded(t: Thread): int { One(t.call.success && Stage(t) >= 1) }
  function Errored(t: Thread): int { One(!t.call.success && Stage(t) >= 1) }
  function Counted(t: Thread): int { One(Stage(t) >= 2) }
  function Added(t: Thread): int { if Stage(t) >= 3 then t.call.duration else 0 }
  function Ended(t: Thread): int { One(t.pc == AtEnd) }
  function Fails(t: Thread): int { t.fails }
  function EndedFails(t: Thread): int { if t.pc == AtEnd then t.fails else 0 }
  function Taken(t: Thread): int { Stage(t) + 2 * t.fails }
}
