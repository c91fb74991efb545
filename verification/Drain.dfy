// Rounds of "scheduleJobs on an empty channel, then one consumer claims and finishes every entry in
// order", with no arrivals: nothing starves, and the whole run follows the queue order.
module Drain {
  import opened Core
  import opened JobStore
  import Actions
  import Lifecycle

  // How a handler ended.
  datatype Outcome = Outcome(success: bool, output: seq<bv8>, error: string, category: ErrorCategory,
                             duration: Duration, delay: Duration)

  datatype Round = Round(batch: seq<Job>, outcomes: seq<Outcome>, worker: string, now: Time)

  function ResultOf(id: Id, o: Outcome, now: Time): JobResult {
    JobResult(id, o.success, o.output, o.error, o.category, o.duration, now)
  }

  // processJob on one entry: the store after it, and whether the claim succeeded.
  function Process(s: Store, entry: Job, o: Outcome, worker: string, now: Time): (Store, bool) {
    var (st, claimed, _) := ClaimJob(s, entry.id, worker, now);
    if !claimed then (s, false)
    else if o.success then (Actions.Complete(st, entry.id, ResultOf(entry.id, o, now), now).0, true)
    else (Actions.Fail(st, entry.id, ResultOf(entry.id, o, now), o.delay, now).0, true)
  }

  // The consumer over the entries of a round: the store after it, and the entries it claimed.
  function Consume(s: Store, entries: seq<Job>, outcomes: seq<Outcome>, worker: string, now: Time): (Store, seq<Job>)
    requires |outcomes| == |entries|
    decreases |entries|
  {
    if entries == [] then (s, [])
    else
      var (st, claimed) := Process(s, entries[0], outcomes[0], worker, now);
      var (end, later) := Consume(st, entries[1..], outcomes[1..], worker, now);
      (end, (if claimed then [entries[0]] else []) + later)
  }

  // The batch is what GetPending may return, and the whole of it fits the empty channel.
  ghost predicate RoundOk(s: Store, size: nat, r: Round) {
    Listing(s, PendingFilter(size), PriorityAsc, r.batch) && |r.outcomes| == |r.batch|
  }

  function RunRound(s: Store, size: nat, r: Round): (Store, seq<Job>)
    requires |r.outcomes| == |Actions.ScheduleBatch(s, r.batch, size, r.now).1|
  {
    var (st, pushed) := Actions.ScheduleBatch(s, r.batch, size, r.now);
    Consume(st, pushed, r.outcomes, r.worker, r.now)
  }

  lemma BatchFits(s: Store, size: nat, r: Round)
    requires size >= 1 && RoundOk(s, size, r)
    ensures |r.outcomes| == |Actions.ScheduleBatch(s, r.batch, size, r.now).1|
  {
    Actions.SchedulePushes(s, r.batch, size, r.now);
  }

  ghost predicate RoundsOk(s: Store, size: nat, rounds: seq<Round>)
    requires size >= 1
    decreases |rounds|
  {
    rounds == [] ||
    (RoundOk(s, size, rounds[0])
     && (BatchFits(s, size, rounds[0]); RoundsOk(RunRound(s, size, rounds[0]).0, size, rounds[1..])))
  }

  ghost function RunRounds(s: Store, size: nat, rounds: seq<Round>): (Store, seq<Job>)
    requires size >= 1 && RoundsOk(s, size, rounds)
    decreases |rounds|
  {
    if rounds == [] then (s, [])
    else
      BatchFits(s, size, rounds[0]);
      var (mid, claimed) := RunRound(s, size, rounds[0]);
      var (end, later) := RunRounds(mid, size, rounds[1..]);
      (end, claimed + later)
  }

  // ----- One entry -----

  // Processing a claimable entry ends its claimability and touches no other job.
  lemma ProcessOne(s: Store, entry: Job, o: Outcome, worker: string, now: Time)
    requires KeyedById(s) && Claimable(s.jobs, entry.id)
    ensures var (end, claimed) := Process(s, entry, o, worker, now);
            && claimed && KeyedById(end)
            && end.jobs.Keys == s.jobs.Keys
            && (forall id :: id in s.jobs && id != entry.id ==> end.jobs[id] == s.jobs[id])
            && !end.jobs[entry.id].state.IsClaimable()
  {
    var (st, _, _) := ClaimJob(s, entry.id, worker, now);
    Actions.OutcomeStates(st, entry.id, ResultOf(entry.id, o, now), o.delay, now);
  }

  // ----- One round -----

  // Everything pushed is claimed, in order, and nothing else changes.
  lemma {:induction false} ConsumeAll(s: Store, entries: seq<Job>, outcomes: seq<Outcome>, worker: string, now: Time)
    requires KeyedById(s) && |outcomes| == |entries|
    requires Distinct(entries) && IdsOf(entries) <= ClaimableIds(s.jobs)
    ensures var (end, claimed) := Consume(s, entries, outcomes, worker, now);
            && claimed == entries && KeyedById(end)
            && end.jobs.Keys == s.jobs.Keys
            && (forall id :: id in s.jobs && id !in IdsOf(entries) ==> end.jobs[id] == s.jobs[id])
            && ClaimableIds(end.jobs) == ClaimableIds(s.jobs) - IdsOf(entries)
    decreases |entries|
  {
    if entries != [] {
      var head, rest := entries[0], entries[1..];
      assert entries == [head] + rest;
      assert head.id in IdsOf(entries);
      assert IdsOf(entries) == {head.id} + IdsOf(rest);
      ProcessOne(s, head, outcomes[0], worker, now);
      var mid := Process(s, head, outcomes[0], worker, now).0;
      assert ClaimableIds(mid.jobs) == ClaimableIds(s.jobs) - {head.id};
      ConsumeAll(mid, rest, outcomes[1..], worker, now);
    }
  }

  // A round claims the top of the queue and leaves the rest of it as it was.
  ghost predicate RoundEffect(s: Store, size: nat, s': Store, claimed: seq<Job>) {
    var pool := ClaimableIds(s.jobs);
    && KeyedById(s')
    && Distinct(claimed) && Sorted(PriorityAsc, claimed) && IdsOf(claimed) <= pool
    && |claimed| == Min(size, |pool|)
    && ClaimableIds(s'.jobs) == pool - IdsOf(claimed)
    && (forall e :: e in claimed ==> RanksAs(s.jobs, e))
    && StillWaiting(s, s', claimed)
  }

  // The claimable jobs that were not claimed are who they were, and none of them precedes one claimed.
  ghost predicate StillWaiting(s: Store, s': Store, claimed: seq<Job>) {
    forall id :: id in ClaimableIds(s.jobs) - IdsOf(claimed) ==>
      id in s'.jobs && Lifecycle.SameIdentity(s'.jobs[id], s.jobs[id])
      && forall e :: e in claimed ==> !Less(PriorityAsc, s.jobs[id], e)
  }

  // The entry has the rank of the stored job it names.
  predicate RanksAs(jobs: map<Id, Job>, e: Job) {
    e.id in jobs && jobs[e.id].priority == e.priority && jobs[e.id].createdAt == e.createdAt
  }

  lemma EntriesRank(s: Store, size: nat, r: Round, pushed: seq<Job>)
    requires RoundOk(s, size, r) && |pushed| <= |r.batch|
    requires forall i :: 0 <= i < |pushed| ==> pushed[i] == Actions.Entry(r.batch[i])
    ensures forall e :: e in pushed ==> RanksAs(s.jobs, e)
  {
    forall e | e in pushed ensures RanksAs(s.jobs, e) {
      var i :| 0 <= i < |pushed| && pushed[i] == e;
      assert r.batch[i] in r.batch;
    }
  }

  lemma RoundClaims(s: Store, size: nat, r: Round)
    requires size >= 1 && KeyedById(s) && RoundOk(s, size, r)
    ensures |r.outcomes| == |Actions.ScheduleBatch(s, r.batch, size, r.now).1|
    ensures RoundEffect(s, size, RunRound(s, size, r).0, RunRound(s, size, r).1)
  {
    BatchFits(s, size, r);
    var (st, pushed) := Actions.ScheduleBatch(s, r.batch, size, r.now);
    Actions.SchedulePushes(s, r.batch, size, r.now);
    EntriesRank(s, size, r, pushed);
    Actions.CyclePushes(s, size, r.batch, size, r.now);
    Actions.ScheduleStores(s, r.batch, size, r.now);
    Actions.ScheduleKeepsClaimable(s, r.batch, size, r.now);
    ConsumeAll(st, pushed, r.outcomes, r.worker, r.now);
  }

  // A round claims the top of the queue: by priority, lowest number first, then by creation, and no claimable
  // job left outranks one claimed.
  lemma RoundClaimsTheTop(s: Store, size: nat, r: Round)
    requires size >= 1 && KeyedById(s) && RoundOk(s, size, r)
    ensures |r.outcomes| == |Actions.ScheduleBatch(s, r.batch, size, r.now).1|
    ensures var (end, claimed) := RunRound(s, size, r);
            RoundEffect(s, size, end, claimed) && QueueOrder(claimed) && NoneAhead(s.jobs, claimed)
  {
    RoundClaims(s, size, r);
    ClaimedInFields(s, RunRound(s, size, r).0, RunRound(s, size, r).1);
  }

  lemma ClaimedInFields(s: Store, end: Store, claimed: seq<Job>)
    requires Distinct(claimed) && Sorted(PriorityAsc, claimed) && IdsOf(claimed) <= ClaimableIds(s.jobs)
    requires StillWaiting(s, end, claimed)
    ensures QueueOrder(claimed) && NoneAhead(s.jobs, claimed)
  {
    assert forall id :: id in ClaimableIds(s.jobs) && id !in IdsOf(claimed) ==> id in ClaimableIds(s.jobs) - IdsOf(claimed);
    Actions.TopInFields(s.jobs, claimed);
  }

  // ----- The whole run -----

  lemma RanksCarryOver(s: Store, size: nat, mid: Store, claimed: seq<Job>, e: Job)
    requires RoundEffect(s, size, mid, claimed) && e.id in ClaimableIds(mid.jobs) && RanksAs(mid.jobs, e)
    ensures RanksAs(s.jobs, e) && e.id !in IdsOf(claimed)
    ensures forall c :: c in claimed ==> !Less(PriorityAsc, e, c)
  {
    assert e.id in ClaimableIds(s.jobs) - IdsOf(claimed);
  }

  lemma JoinSorted(a: seq<Job>, b: seq<Job>)
    requires Sorted(PriorityAsc, a) && Sorted(PriorityAsc, b)
    requires Distinct(a) && Distinct(b)
    requires forall y :: y in b ==> y.id !in IdsOf(a) && forall x :: x in a ==> !Less(PriorityAsc, y, x)
    ensures Sorted(PriorityAsc, a + b) && Distinct(a + b) && IdsOf(a + b) == IdsOf(a) + IdsOf(b)
  {
    forall i, j | 0 <= i < j < |a + b|
      ensures !Less(PriorityAsc, (a + b)[j], (a + b)[i]) && (a + b)[i].id != (a + b)[j].id
    {
      if i < |a| <= j {
        assert (a + b)[j] in b && (a + b)[i] in a;
      }
    }
  }

  // What n rounds have done.
  ghost predicate RunEffect(s: Store, size: nat, n: nat, s': Store, claimed: seq<Job>) {
    var pool := ClaimableIds(s.jobs);
    && Distinct(claimed) && Sorted(PriorityAsc, claimed) && IdsOf(claimed) <= pool
    && |claimed| == Min(n * size, |pool|)
    && ClaimableIds(s'.jobs) == pool - IdsOf(claimed)
    && (forall e :: e in claimed ==> RanksAs(s.jobs, e))
    && StillWaiting(s, s', claimed)
  }

  lemma RoundsAdd(size: nat, n: nat, k: nat, first: nat, later: nat)
    requires n >= 1 && first == Min(size, k) && later == Min((n - 1) * size, k - first)
    ensures first + later == Min(n * size, k)
  {
    assert n * size == size + (n - 1) * size;
  }

  lemma CeilingCovers(k: nat, size: nat)
    requires size >= 1
    ensures (k + size - 1) / size * size >= k
  {
    var q := (k + size - 1) / size;
    assert k + size - 1 == q * size + (k + size - 1) % size;
  }

  lemma LaterComesAfter(s: Store, size: nat, mid: Store, claimed: seq<Job>, later: seq<Job>)
    requires RoundEffect(s, size, mid, claimed)
    requires IdsOf(later) <= ClaimableIds(mid.jobs) && forall e :: e in later ==> RanksAs(mid.jobs, e)
    ensures forall e :: e in later ==> RanksAs(s.jobs, e)
    ensures forall e :: e in later ==> e.id !in IdsOf(claimed) && forall c :: c in claimed ==> !Less(PriorityAsc, e, c)
  {
    forall e | e in later
      ensures RanksAs(s.jobs, e) && e.id !in IdsOf(claimed) && forall c :: c in claimed ==> !Less(PriorityAsc, e, c)
    {
      assert e.id in IdsOf(later);
      RanksCarryOver(s, size, mid, claimed, e);
    }
  }

  lemma LaterCounts(pool: set<Id>, size: nat, n: nat, claimed: seq<Job>, later: seq<Job>)
    requires n >= 1 && Distinct(claimed) && IdsOf(claimed) <= pool
    requires |claimed| == Min(size, |pool|) && |later| == Min((n - 1) * size, |pool - IdsOf(claimed)|)
    ensures |claimed + later| == Min(n * size, |pool|)
  {
    DistinctCount(claimed);
    assert |pool - IdsOf(claimed)| == |pool| - |claimed|;
    RoundsAdd(size, n, |pool|, |claimed|, |later|);
  }

  lemma LeftInTwo(pool: set<Id>, a: set<Id>, b: set<Id>)
    requires a <= pool && b <= pool - a
    ensures pool - a - b == pool - (a + b) && a + b <= pool
  {
  }

  lemma JoinedOrder(s: Store, size: nat, mid: Store, claimed: seq<Job>, n: nat, end: Store, later: seq<Job>)
    requires RoundEffect(s, size, mid, claimed) && RunEffect(mid, size, n, end, later)
    ensures Distinct(claimed + later) && Sorted(PriorityAsc, claimed + later)
    ensures IdsOf(claimed + later) == IdsOf(claimed) + IdsOf(later)
    ensures forall e :: e in claimed + later ==> RanksAs(s.jobs, e)
  {
    LaterComesAfter(s, size, mid, claimed, later);
    JoinSorted(claimed, later);
  }

  lemma JoinedPool(s: Store, size: nat, mid: Store, claimed: seq<Job>, n: nat, end: Store, later: seq<Job>)
    requires RoundEffect(s, size, mid, claimed) && RunEffect(mid, size, n, end, later)
    ensures var pool, both := ClaimableIds(s.jobs), IdsOf(claimed) + IdsOf(later);
            && both <= pool && ClaimableIds(end.jobs) == pool - both
            && |claimed + later| == Min((n + 1) * size, |pool|)
  {
    LaterCounts(ClaimableIds(s.jobs), size, n + 1, claimed, later);
    LeftInTwo(ClaimableIds(s.jobs), IdsOf(claimed), IdsOf(later));
  }

  lemma JoinedRest(s: Store, mid: Store, claimed: seq<Job>, end: Store, later: seq<Job>)
    requires StillWaiting(s, mid, claimed) && StillWaiting(mid, end, later)
    requires ClaimableIds(mid.jobs) == ClaimableIds(s.jobs) - IdsOf(claimed)
    requires IdsOf(claimed + later) == IdsOf(claimed) + IdsOf(later)
    ensures StillWaiting(s, end, claimed + later)
  {
    forall id | id in ClaimableIds(s.jobs) - IdsOf(claimed + later)
      ensures id in end.jobs && Lifecycle.SameIdentity(end.jobs[id], s.jobs[id])
      ensures forall e :: e in claimed + later ==> !Less(PriorityAsc, s.jobs[id], e)
    {
      WaitsOn(s, mid, claimed, end, later, id);
    }
  }

  lemma WaitsOn(s: Store, mid: Store, claimed: seq<Job>, end: Store, later: seq<Job>, id: Id)
    requires StillWaiting(s, mid, claimed) && StillWaiting(mid, end, later)
    requires id in ClaimableIds(s.jobs) - IdsOf(claimed) && id in ClaimableIds(mid.jobs) - IdsOf(later)
    ensures id in end.jobs && Lifecycle.SameIdentity(end.jobs[id], s.jobs[id])
    ensures forall e :: e in claimed + later ==> !Less(PriorityAsc, s.jobs[id], e)
  {
  }

  // A round followed by n more is n + 1 rounds.
  lemma RoundThenRun(s: Store, size: nat, mid: Store, claimed: seq<Job>, n: nat, end: Store, later: seq<Job>)
    requires RoundEffect(s, size, mid, claimed) && RunEffect(mid, size, n, end, later)
    ensures RunEffect(s, size, n + 1, end, claimed + later)
  {
    JoinedOrder(s, size, mid, claimed, n, end, later);
    JoinedPool(s, size, mid, claimed, n, end, later);
    JoinedRest(s, mid, claimed, end, later);
  }

  lemma {:induction false} RoundsClaimInOrder(s: Store, size: nat, rounds: seq<Round>)
    requires size >= 1 && KeyedById(s) && RoundsOk(s, size, rounds)
    ensures var (end, claimed) := RunRounds(s, size, rounds);
            RunEffect(s, size, |rounds|, end, claimed) && QueueOrder(claimed) && NoneAhead(s.jobs, claimed)
    decreases |rounds|
  {
    if rounds == [] {
      NoRounds(s, size);
    } else {
      RoundClaimsTheTop(s, size, rounds[0]);
      var first, more := RunRound(s, size, rounds[0]), rounds[1..];
      RoundsClaimInOrder(first.0, size, more);
      var rest := RunRounds(first.0, size, more);
      RoundThenRun(s, size, first.0, first.1, |more|, rest.0, rest.1);
      assert |rounds| == |more| + 1;
      assert RunRounds(s, size, rounds) == (rest.0, first.1 + rest.1);
    }
    ClaimedInFields(s, RunRounds(s, size, rounds).0, RunRounds(s, size, rounds).1);
  }

  lemma NoRounds(s: Store, size: nat)
    ensures RunEffect(s, size, 0, s, [])
  {
    assert IdsOf([]) == {};
  }

  // k jobs are gone after k / size rounds, rounded up: each claimed exactly once, all of them in
  // (priority, creation) order over the whole run, and none is left.
  lemma QueueDrains(s: Store, size: nat, rounds: seq<Round>)
    requires size >= 1 && KeyedById(s) && RoundsOk(s, size, rounds)
    requires |rounds| == (|ClaimableIds(s.jobs)| + size - 1) / size
    ensures var (end, claimed) := RunRounds(s, size, rounds);
            && ClaimableIds(end.jobs) == {}
            && Distinct(claimed) && IdsOf(claimed) == ClaimableIds(s.jobs)
            && QueueOrder(claimed)
            && forall e :: e in claimed ==> RanksAs(s.jobs, e)
  {
    RoundsClaimInOrder(s, size, rounds);
    AllClaimed(s, size, |rounds|, RunRounds(s, size, rounds).0, RunRounds(s, size, rounds).1);
  }

  lemma AllClaimed(s: Store, size: nat, n: nat, end: Store, claimed: seq<Job>)
    requires size >= 1 && RunEffect(s, size, n, end, claimed) && n == (|ClaimableIds(s.jobs)| + size - 1) / size
    ensures ClaimableIds(end.jobs) == {} && IdsOf(claimed) == ClaimableIds(s.jobs)
  {
    var pool := ClaimableIds(s.jobs);
    assert |claimed| == |pool| by { CeilingCovers(|pool|, size); }
    DistinctCount(claimed);
    SubsetCount(IdsOf(claimed), pool);
  }
}
