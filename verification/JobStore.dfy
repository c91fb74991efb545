// The store that BoltStore and MemoryStore implement: one map of jobs, one of results, one of
// checkpoints, and an index from idempotency keys to job ids (persistence/store.go).
module JobStore {
  import opened Core
  import Lifecycle

  datatype Status = Done | NotFound | AlreadyExists

  datatype Store = Store(
    jobs: map<Id, Job>,
    results: map<Id, JobResult>,
    checkpoints: map<Id, seq<bv8>>,
    idem: map<string, Id>)

  const EMPTY := Store(map[], map[], map[], map[])

  // ----- Operations -----

  function Create(s: Store, job: Job): (Store, Status) {
    if job.idempotencyKey != "" && job.idempotencyKey in s.idem then
      (s, AlreadyExists)
    else if job.id in s.jobs then
      (s, AlreadyExists)
    else
      (s.(jobs := s.jobs[job.id := job],
          idem := if job.idempotencyKey == "" then s.idem else s.idem[job.idempotencyKey := job.id]),
       Done)
  }

  function Get(s: Store, id: Id): Option<Job> {
    if id in s.jobs then Some(s.jobs[id]) else None
  }

  function GetByIdempotencyKey(s: Store, key: string): Option<Job> {
    if key in s.idem then Get(s, s.idem[key]) else None
  }

  // Puts the caller's whole record back, whatever the stored one has become.
  function Update(s: Store, job: Job, now: Time): (Store, Status) {
    if job.id !in s.jobs then (s, NotFound)
    else (s.(jobs := s.jobs[job.id := job.(updatedAt := now)]), Done)
  }

  function UpdateState(s: Store, id: Id, state: JobState, now: Time): (Store, Status) {
    if id !in s.jobs then (s, NotFound)
    else (s.(jobs := s.jobs[id := s.jobs[id].(state := state, updatedAt := now)]), Done)
  }

  function Delete(s: Store, id: Id): (Store, Status) {
    if id !in s.jobs then (s, NotFound)
    else (Remove(s, {id}), Done)
  }

  // The store without the jobs in `ids` and without anything kept for them.
  function Remove(s: Store, ids: set<Id>): Store {
    Store(s.jobs - ids, s.results - ids, s.checkpoints - ids, s.idem - KeysOf(s.jobs, ids))
  }

  function KeysOf(jobs: map<Id, Job>, ids: set<Id>): set<string> {
    set id | id in ids && id in jobs && jobs[id].idempotencyKey != "" :: jobs[id].idempotencyKey
  }

  predicate Claimable(jobs: map<Id, Job>, id: Id) {
    id in jobs && jobs[id].state.IsClaimable()
  }

  function ClaimJob(s: Store, id: Id, worker: string, now: Time): (Store, bool, Status) {
    if id !in s.jobs then (s, false, NotFound)
    else if !s.jobs[id].state.IsClaimable() then (s, false, Done)
    else (s.(jobs := s.jobs[id := Lifecycle.Claim(s.jobs[id], worker, now)]), true, Done)
  }

  function SaveResult(s: Store, r: JobResult): Store {
    s.(results := s.results[r.jobId := r])
  }

  function GetResult(s: Store, id: Id): Option<JobResult> {
    if id in s.results then Some(s.results[id]) else None
  }

  function SaveCheckpoint(s: Store, id: Id, data: seq<bv8>): Store {
    s.(checkpoints := s.checkpoints[id := data])
  }

  // A missing checkpoint reads as empty data.
  function GetCheckpoint(s: Store, id: Id): seq<bv8> {
    if id in s.checkpoints then s.checkpoints[id] else []
  }

  // ----- Queries -----

  datatype ListOrder = CreatedAsc | CreatedDesc | UpdatedDesc | PriorityAsc | AnyOrder

  datatype JobFilter = JobFilter(
    types: seq<string>,
    states: seq<JobState>,
    priorities: seq<int>,
    tags: map<string, string>,
    createdAfter: Time,
    createdBefore: Time,
    updatedAfter: Time,
    correlationId: string,
    limit: int,
    order: ListOrder)

  // The value a Go map gives for a tag: the empty string when it is missing.
  function TagOf(j: Job, k: string): string {
    if k in j.tags then j.tags[k] else ""
  }

  predicate Matches(j: Job, f: JobFilter) {
    && (f.types == [] || j.jobType in f.types)
    && (f.states == [] || j.state in f.states)
    && (f.priorities == [] || j.priority in f.priorities)
    && (forall k :: k in f.tags ==> TagOf(j, k) == f.tags[k])
    && (f.createdAfter != ZERO_TIME ==> f.createdAfter <= j.createdAt)
    && (f.createdBefore != ZERO_TIME ==> j.createdAt <= f.createdBefore)
    && (f.updatedAfter != ZERO_TIME ==> f.updatedAfter <= j.updatedAt)
    && (f.correlationId == "" || j.correlationId == f.correlationId)
  }

  function Matching(jobs: map<Id, Job>, f: JobFilter): set<Id> {
    set id | id in jobs && Matches(jobs[id], f)
  }

  // `a` is listed strictly before `b`.
  predicate Less(order: ListOrder, a: Job, b: Job) {
    match order
    case CreatedAsc => a.createdAt < b.createdAt
    case CreatedDesc => a.createdAt > b.createdAt
    case UpdatedDesc => a.updatedAt > b.updatedAt
    case PriorityAsc => a.priority < b.priority || (a.priority == b.priority && a.createdAt < b.createdAt)
    case AnyOrder => false
  }

  predicate Sorted(order: ListOrder, js: seq<Job>) {
    forall i, j :: 0 <= i < j < |js| ==> !Less(order, js[j], js[i])
  }

  predicate Distinct(js: seq<Job>) {
    forall i, j :: 0 <= i < j < |js| ==> js[i].id != js[j].id
  }

  function IdsOf(js: seq<Job>): set<Id> {
    set j | j in js :: j.id
  }

  // Copies of stored records, no job twice.
  predicate Snapshot(jobs: map<Id, Job>, js: seq<Job>) {
    Distinct(js) && forall j :: j in js ==> j.id in jobs && jobs[j.id] == j
  }

  function EffectiveLimit(limit: int): nat {
    if limit <= 0 then 100 else limit
  }

  function Min(a: nat, b: nat): nat {
    if a < b then a else b
  }

  // The jobs of `pool` that a listing of at most `limit` of them, in `order`, may return:
  // a sorted prefix that no job left out strictly precedes.
  predicate TopOf(jobs: map<Id, Job>, pool: set<Id>, limit: nat, order: ListOrder, js: seq<Job>) {
    && Snapshot(jobs, js)
    && IdsOf(js) <= pool
    && |js| == Min(limit, |pool|)
    && Sorted(order, js)
    && forall id, j :: id in pool && id in jobs && id !in IdsOf(js) && j in js ==> !Less(order, jobs[id], j)
  }

  predicate Listing(s: Store, f: JobFilter, order: ListOrder, js: seq<Job>) {
    TopOf(s.jobs, Matching(s.jobs, f), EffectiveLimit(f.limit), order, js)
  }

  function PendingFilter(limit: int): JobFilter {
    JobFilter([], [Pending, Scheduled], [], map[], ZERO_TIME, ZERO_TIME, ZERO_TIME, "", limit, PriorityAsc)
  }

  function ClaimableIds(jobs: map<Id, Job>): set<Id> {
    set id | id in jobs && jobs[id].state.IsClaimable()
  }

  function DueIds(jobs: map<Id, Job>, now: Time): set<Id> {
    set id | id in jobs && jobs[id].state == Delayed && jobs[id].scheduledAt <= now
  }

  function StuckIds(jobs: map<Id, Job>, cutoff: Time): set<Id> {
    set id | id in jobs && Lifecycle.Stuck(jobs[id], cutoff)
  }

  function InState(jobs: map<Id, Job>, state: JobState): set<Id> {
    set id | id in jobs && jobs[id].state == state
  }

  datatype QueueStats = QueueStats(
    pending: nat, scheduled: nat, running: nat, delayed: nat,
    completed: nat, failed: nat, deadLetter: nat, cancelled: nat,
    totalJobs: nat)
  {
    function CounterSum(): nat {
      pending + scheduled + running + delayed + completed + failed + deadLetter + cancelled
    }
  }

  predicate Counts(jobs: map<Id, Job>, q: QueueStats) {
    && q.pending == |InState(jobs, Pending)|
    && q.scheduled == |InState(jobs, Scheduled)|
    && q.running == |InState(jobs, Running)|
    && q.delayed == |InState(jobs, Delayed)|
    && q.completed == |InState(jobs, Completed)|
    && q.failed == |InState(jobs, Failed)|
    && q.deadLetter == |InState(jobs, DeadLetter)|
    && q.cancelled == |InState(jobs, Cancelled)|
    && q.totalJobs == |jobs|
  }

  predicate Expired(j: Job, cutoff: Time) {
    && (j.state == Completed || j.state == Failed || j.state == Cancelled)
    && j.completedAt != ZERO_TIME
    && j.completedAt < cutoff
  }

  function ExpiredIds(jobs: map<Id, Job>, cutoff: Time): set<Id> {
    set id | id in jobs && Expired(jobs[id], cutoff)
  }

  function Cleanup(s: Store, cutoff: Time): (Store, nat) {
    (Remove(s, ExpiredIds(s.jobs, cutoff)), |ExpiredIds(s.jobs, cutoff)|)
  }

  // ----- Invariants -----

  predicate KeyedById(s: Store) {
    forall id :: id in s.jobs ==> s.jobs[id].id == id
  }

  // The index holds exactly the keys of the stored jobs.
  predicate IndexExact(s: Store) {
    && (forall k :: k in s.idem ==> k != "" && s.idem[k] in s.jobs && s.jobs[s.idem[k]].idempotencyKey == k)
    && (forall id :: id in s.jobs && s.jobs[id].idempotencyKey != "" ==>
          s.jobs[id].idempotencyKey in s.idem && s.idem[s.jobs[id].idempotencyKey] == id)
  }

  predicate WellFormed(s: Store) {
    KeyedById(s) && IndexExact(s)
  }

  // ----- Facts about listings -----

  lemma ClaimableIsPendingFilter(jobs: map<Id, Job>, limit: int)
    ensures Matching(jobs, PendingFilter(limit)) == ClaimableIds(jobs)
  {
    assert forall j: Job :: Matches(j, PendingFilter(limit)) == j.state.IsClaimable();
  }

  lemma {:induction false} DistinctCount(js: seq<Job>)
    requires Distinct(js)
    ensures |IdsOf(js)| == |js|
  {
    if js != [] {
      var last, init := js[|js| - 1], js[..|js| - 1];
      DistinctCount(init);
      assert js == init + [last];
      assert IdsOf(js) == IdsOf(init) + {last.id};
      assert last.id !in IdsOf(init);
    }
  }

  lemma PrefixIds(js: seq<Job>, n: nat)
    requires n <= |js|
    ensures forall k :: 0 <= k < n ==> js[k].id in IdsOf(js[..n])
  {
    assert forall k :: 0 <= k < n ==> js[..n][k] == js[k];
  }

  lemma HeadApart(js: seq<Job>)
    requires js != []
    ensures IdsOf(js) == {js[0].id} + IdsOf(js[1..])
    ensures Distinct(js) ==> js[0].id !in IdsOf(js[1..])
  {
    assert js == [js[0]] + js[1..];
  }

  lemma SubsetCount<T>(a: set<T>, b: set<T>)
    requires a <= b
    ensures |a| <= |b|
    ensures |a| == |b| ==> a == b
  {
    assert |b| == |a| + |b - a| by {
      assert b == a + (b - a);
    }
  }

  // ----- The same in the fields of the records -----

  // `a` may stand before `b`.
  predicate MayPrecede(order: ListOrder, a: Job, b: Job) {
    match order
    case CreatedAsc => a.createdAt <= b.createdAt
    case CreatedDesc => a.createdAt >= b.createdAt
    case UpdatedDesc => a.updatedAt >= b.updatedAt
    case PriorityAsc => a.priority < b.priority || (a.priority == b.priority && a.createdAt <= b.createdAt)
    case AnyOrder => true
  }

  predicate InOrder(order: ListOrder, js: seq<Job>) {
    forall i, j :: 0 <= i < j < |js| ==> MayPrecede(order, js[i], js[j])
  }

  // Each record listed may stand before each job of the pool that is not.
  predicate NoneBefore(jobs: map<Id, Job>, pool: set<Id>, order: ListOrder, js: seq<Job>) {
    forall id, j :: id in pool && id in jobs && id !in IdsOf(js) && j in js ==> MayPrecede(order, j, jobs[id])
  }

  // By priority, lowest number first, then by creation.
  predicate QueueOrder(js: seq<Job>) {
    forall i, j :: 0 <= i < j < |js| ==>
      js[i].priority < js[j].priority || (js[i].priority == js[j].priority && js[i].createdAt <= js[j].createdAt)
  }

  // No Pending or Scheduled job left out outranks one of these.
  predicate NoneAhead(jobs: map<Id, Job>, js: seq<Job>) {
    forall id, j :: id in jobs && (jobs[id].state == Pending || jobs[id].state == Scheduled) && id !in IdsOf(js) && j in js ==>
      j.priority < jobs[id].priority || (j.priority == jobs[id].priority && j.createdAt <= jobs[id].createdAt)
  }

  lemma ListingInFields(jobs: map<Id, Job>, pool: set<Id>, limit: nat, order: ListOrder, js: seq<Job>)
    requires TopOf(jobs, pool, limit, order, js)
    ensures InOrder(order, js) && NoneBefore(jobs, pool, order, js)
    ensures forall j :: j in js ==> j.id in pool && j.id in jobs && jobs[j.id] == j
  {
    forall j | j in js ensures j.id in pool {
      assert j.id in IdsOf(js);
    }
  }

  lemma PendingInFields(s: Store, limit: int, js: seq<Job>)
    requires Listing(s, PendingFilter(limit), PriorityAsc, js)
    ensures QueueOrder(js) && NoneAhead(s.jobs, js)
    ensures forall j :: j in js ==> j.id in s.jobs && s.jobs[j.id] == j && (j.state == Pending || j.state == Scheduled)
    ensures |js| == Min(if limit <= 0 then 100 else limit,
                        |set id | id in s.jobs && (s.jobs[id].state == Pending || s.jobs[id].state == Scheduled)|)
  {
    ClaimableIsPendingFilter(s.jobs, limit);
    assert ClaimableIds(s.jobs) == set id | id in s.jobs && (s.jobs[id].state == Pending || s.jobs[id].state == Scheduled);
    forall j | j in js ensures j.id in ClaimableIds(s.jobs) {
      assert j.id in IdsOf(js);
    }
  }

  lemma InStateInFields(jobs: map<Id, Job>, state: JobState)
    ensures InState(jobs, state) == set id | id in jobs && jobs[id].state == state
  {
  }

  lemma StatsInFields(jobs: map<Id, Job>, q: QueueStats)
    requires Counts(jobs, q)
    ensures q.pending == |set id | id in jobs && jobs[id].state == Pending|
    ensures q.scheduled == |set id | id in jobs && jobs[id].state == Scheduled|
    ensures q.running == |set id | id in jobs && jobs[id].state == Running|
    ensures q.delayed == |set id | id in jobs && jobs[id].state == Delayed|
    ensures q.completed == |set id | id in jobs && jobs[id].state == Completed|
    ensures q.failed == |set id | id in jobs && jobs[id].state == Failed|
    ensures q.deadLetter == |set id | id in jobs && jobs[id].state == DeadLetter|
    ensures q.cancelled == |set id | id in jobs && jobs[id].state == Cancelled|
    ensures q.totalJobs == |jobs|
  {
    InStateInFields(jobs, Pending);
    InStateInFields(jobs, Scheduled);
    InStateInFields(jobs, Running);
    InStateInFields(jobs, Delayed);
    InStateInFields(jobs, Completed);
    InStateInFields(jobs, Failed);
    InStateInFields(jobs, DeadLetter);
    InStateInFields(jobs, Cancelled);
  }

  // Nothing is lost but the jobs in `gone` and what is kept for them.
  ghost predicate OnlyWithout(s: Store, end: Store, gone: set<Id>) {
    && end.jobs == (map id | id in s.jobs && id !in gone :: s.jobs[id])
    && end.results == (map id | id in s.results && id !in gone :: s.results[id])
    && end.checkpoints == (map id | id in s.checkpoints && id !in gone :: s.checkpoints[id])
    && (forall k :: k in end.idem <==> k in s.idem && !exists id :: id in gone && id in s.jobs && s.jobs[id].idempotencyKey == k != "")
    && (forall k :: k in end.idem ==> end.idem[k] == s.idem[k])
  }

  lemma RemoveInFields(s: Store, ids: set<Id>)
    ensures OnlyWithout(s, Remove(s, ids), ids)
    ensures ids <= s.jobs.Keys ==> s.jobs.Keys - Remove(s, ids).jobs.Keys == ids
  {
  }

  lemma DeleteInFields(s: Store, id: Id)
    requires id in s.jobs
    ensures Delete(s, id).1 == Done && OnlyWithout(s, Delete(s, id).0, {id})
  {
    RemoveInFields(s, {id});
  }

  // Which jobs Cleanup takes away.
  lemma CleanupInFields(s: Store, cutoff: Time)
    ensures var (end, n) := Cleanup(s, cutoff);
            var gone := s.jobs.Keys - end.jobs.Keys;
            && n == |gone| && OnlyWithout(s, end, gone)
            && forall id :: id in gone <==>
                 && id in s.jobs && s.jobs[id].completedAt != 0 && s.jobs[id].completedAt < cutoff
                 && (s.jobs[id].state == Completed || s.jobs[id].state == Failed || s.jobs[id].state == Cancelled)
  {
    RemoveInFields(s, ExpiredIds(s.jobs, cutoff));
  }

  function InStates(jobs: map<Id, Job>, states: set<JobState>): set<Id> {
    set id | id in jobs && jobs[id].state in states
  }

  lemma GrownMap<K, V>(m: map<K, V>, k: K, v: V)
    requires k !in m
    ensures |m[k := v]| == |m| + 1
  {
    assert m[k := v].Keys == m.Keys + {k};
  }

  lemma AddState(jobs: map<Id, Job>, states: set<JobState>, state: JobState)
    requires state !in states
    ensures |InStates(jobs, states + {state})| == |InStates(jobs, states)| + |InState(jobs, state)|
  {
    assert InStates(jobs, states + {state}) == InStates(jobs, states) + InState(jobs, state);
    assert InStates(jobs, states) !! InState(jobs, state);
  }

  lemma AddTwoStates(jobs: map<Id, Job>, states: set<JobState>, a: JobState, b: JobState)
    requires a !in states && b !in states && a != b
    ensures |InStates(jobs, states + {a, b})| ==
            |InStates(jobs, states)| + |InState(jobs, a)| + |InState(jobs, b)|
  {
    AddState(jobs, states, a);
    AddState(jobs, states + {a}, b);
    assert states + {a} + {b} == states + {a, b};
  }

  lemma LiveStates(jobs: map<Id, Job>)
    ensures |InStates(jobs, {Pending, Scheduled, Running, Delayed})| ==
            |InState(jobs, Pending)| + |InState(jobs, Scheduled)| + |InState(jobs, Running)| + |InState(jobs, Delayed)|
  {
    assert InStates(jobs, {}) == {};
    AddTwoStates(jobs, {}, Pending, Scheduled);
    AddTwoStates(jobs, {} + {Pending, Scheduled}, Running, Delayed);
    assert {} + {Pending, Scheduled} + {Running, Delayed} == {Pending, Scheduled, Running, Delayed};
  }

  lemma EndedStates(jobs: map<Id, Job>)
    ensures |InStates(jobs, {Completed, Failed, DeadLetter, Cancelled})| ==
            |InState(jobs, Completed)| + |InState(jobs, Failed)| + |InState(jobs, DeadLetter)| + |InState(jobs, Cancelled)|
  {
    assert InStates(jobs, {}) == {};
    AddTwoStates(jobs, {}, Completed, Failed);
    AddTwoStates(jobs, {} + {Completed, Failed}, DeadLetter, Cancelled);
    assert {} + {Completed, Failed} + {DeadLetter, Cancelled} == {Completed, Failed, DeadLetter, Cancelled};
  }

  lemma Partition(jobs: map<Id, Job>, a: set<JobState>, b: set<JobState>, c: JobState)
    requires a !! b && c !in a && c !in b
    requires forall st: JobState :: st in a || st in b || st == c
    ensures |jobs| == |InStates(jobs, a)| + |InStates(jobs, b)| + |InState(jobs, c)|
  {
    var x, y, z := InStates(jobs, a), InStates(jobs, b), InState(jobs, c);
    assert jobs.Keys == x + y + z;
    assert |x + y| == |x| + |y|;
    assert |x + y + z| == |x + y| + |z|;
  }

  lemma EveryStateOnce(live: set<JobState>, ended: set<JobState>)
    requires live == {Pending, Scheduled, Running, Delayed}
    requires ended == {Completed, Failed, DeadLetter, Cancelled}
    ensures live !! ended && Retrying !in live && Retrying !in ended
    ensures forall st: JobState :: st in live || st in ended || st == Retrying
  {
  }

  // The nine states partition the jobs; Stats has a counter for eight of them.
  lemma StatsAddUp(jobs: map<Id, Job>, q: QueueStats)
    requires Counts(jobs, q)
    ensures q.totalJobs == q.CounterSum() + |InState(jobs, Retrying)|
  {
    var live, ended := {Pending, Scheduled, Running, Delayed}, {Completed, Failed, DeadLetter, Cancelled};
    assert |jobs| == |InStates(jobs, live)| + |InStates(jobs, ended)| + |InState(jobs, Retrying)| by {
      EveryStateOnce(live, ended);
      Partition(jobs, live, ended, Retrying);
    }
    LiveStates(jobs);
    EndedStates(jobs);
  }

  // ----- The index under every operation -----

  lemma CreateKeepsIndex(s: Store, job: Job)
    requires WellFormed(s)
    ensures WellFormed(Create(s, job).0)
    ensures Create(s, job).1 == Done <==> job.id !in s.jobs && forall id :: id in s.jobs ==>
              job.idempotencyKey == "" || s.jobs[id].idempotencyKey != job.idempotencyKey
  {
    if job.idempotencyKey != "" && job.idempotencyKey in s.idem {
      assert s.jobs[s.idem[job.idempotencyKey]].idempotencyKey == job.idempotencyKey;
    } else if job.id !in s.jobs {
      CreatedIndex(s, job);
    }
  }

  lemma CreatedIndex(s: Store, job: Job)
    requires WellFormed(s) && job.id !in s.jobs && (job.idempotencyKey != "" ==> job.idempotencyKey !in s.idem)
    ensures WellFormed(Create(s, job).0)
  {
    var t := Create(s, job).0;
    forall k | k in t.idem
      ensures k != "" && t.idem[k] in t.jobs && t.jobs[t.idem[k]].idempotencyKey == k
    {
      assert k != job.idempotencyKey ==> s.idem[k] in s.jobs;
    }
  }

  // A full-record write keeps the index exactly when it keeps the record's key.
  lemma UpdateKeepsIndex(s: Store, job: Job, now: Time)
    requires WellFormed(s) && job.id in s.jobs
    ensures WellFormed(Update(s, job, now).0) <==> job.idempotencyKey == s.jobs[job.id].idempotencyKey
  {
    var t := Update(s, job, now).0;
    var held := s.jobs[job.id].idempotencyKey;
    if job.idempotencyKey == held {
      forall k | k in t.idem
        ensures k != "" && t.idem[k] in t.jobs && t.jobs[t.idem[k]].idempotencyKey == k
      {
        assert s.idem[k] in s.jobs;
      }
    } else if held != "" {
      assert t.idem[held] == job.id;
    } else {
      assert t.jobs[job.id].idempotencyKey == job.idempotencyKey;
    }
  }

  lemma RemoveKeepsIndex(s: Store, ids: set<Id>)
    requires WellFormed(s)
    ensures var t := Remove(s, ids);
            && WellFormed(t)
            && t.jobs.Keys == s.jobs.Keys - ids
            && (forall k :: k in s.idem && k !in t.idem <==> k in s.idem && s.idem[k] in ids)
  {
    var t := Remove(s, ids);
    var freed := KeysOf(s.jobs, ids);
    forall k | k in s.idem
      ensures k in freed <==> s.idem[k] in ids
    {
      if k in freed {
        var id :| id in ids && id in s.jobs && s.jobs[id].idempotencyKey == k;
        assert s.idem[k] == id;
      }
    }
  }

  // At most one stored job holds a key, and the index finds it.
  lemma KeyHeldOnce(s: Store, a: Id, b: Id)
    requires WellFormed(s)
    requires a in s.jobs && b in s.jobs
    requires s.jobs[a].idempotencyKey == s.jobs[b].idempotencyKey != ""
    ensures a == b && GetByIdempotencyKey(s, s.jobs[a].idempotencyKey) == Some(s.jobs[a])
  {
    assert s.idem[s.jobs[a].idempotencyKey] == a;
    assert s.idem[s.jobs[b].idempotencyKey] == b;
  }
}
