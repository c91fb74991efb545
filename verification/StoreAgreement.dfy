// The two stores give the same answers to every sequence of calls that the protocol can issue.
module StoreAgreement {
  import opened Core
  import opened JobStore
  import BoltStore
  import MemoryStore

  datatype Call =
    | Create(job: Job)
    | Get(id: Id)
    | GetByIdempotencyKey(key: string)
    | Update(job: Job, now: Time)
    | SetScheduled(id: Id, now: Time)
    | Delete(id: Id)
    | ClaimJob(id: Id, worker: string, now: Time)
    | SaveResult(result: JobResult)
    | GetResult(id: Id)
    | SaveCheckpoint(id: Id, data: seq<bv8>)
    | GetCheckpoint(id: Id)
    | List(filter: JobFilter)
    | Count(filter: JobFilter)
    | GetPending(limit: int)
    | GetDelayed(now: Time, atMost: Size)
    | GetStuck(cutoff: Time)
    | Stats
    | Cleanup(cutoff: Time)

  // Listings are compared by their length, and by the jobs they name when they are shorter than the limit:
  // the memory store keeps no order, so a listing that the limit cuts may name other jobs.
  datatype Answer =
    | Said(status: Status)
    | Claimed(yes: bool, status: Status)
    | Found(job: Option<Job>)
    | FoundResult(result: Option<JobResult>)
    | Data(data: seq<bv8>)
    | Number(n: nat)
    | Page(length: nat, all: set<Id>)
    | Jobs(ids: set<Id>)
    | Counters(stats: QueueStats)
    | Nothing

  // ----- What each store answers -----

  function PageOf(pool: set<Id>, limit: nat): Answer {
    Page(Min(limit, |pool|), if |pool| < limit then pool else {})
  }

  function StatsOf(jobs: map<Id, Job>): QueueStats {
    QueueStats(|InState(jobs, Pending)|, |InState(jobs, Scheduled)|, |InState(jobs, Running)|, |InState(jobs, Delayed)|,
               |InState(jobs, Completed)|, |InState(jobs, Failed)|, |InState(jobs, DeadLetter)|,
               |InState(jobs, Cancelled)|, |jobs|)
  }

  function BoltCall(s: Store, c: Call): (Store, Answer) {
    match c
    case Create(job) => var (t, st) := JobStore.Create(s, job); (t, Said(st))
    case Get(id) => (s, Found(JobStore.Get(s, id)))
    case GetByIdempotencyKey(key) => (s, Found(JobStore.GetByIdempotencyKey(s, key)))
    case Update(job, now) => var (t, st) := JobStore.Update(s, job, now); (t, Said(st))
    case SetScheduled(id, now) => var (t, st) := UpdateState(s, id, Scheduled, now); (t, Said(st))
    case Delete(id) => var (t, st) := JobStore.Delete(s, id); (t, Said(st))
    case ClaimJob(id, worker, now) => var (t, yes, st) := JobStore.ClaimJob(s, id, worker, now); (t, Claimed(yes, st))
    case SaveResult(r) => (JobStore.SaveResult(s, r), Nothing)
    case GetResult(id) => (s, FoundResult(JobStore.GetResult(s, id)))
    case SaveCheckpoint(id, data) => (JobStore.SaveCheckpoint(s, id, data), Nothing)
    case GetCheckpoint(id) => (s, Data(JobStore.GetCheckpoint(s, id)))
    case List(f) => (s, PageOf(Matching(s.jobs, f), EffectiveLimit(f.limit)))
    case Count(f) => (s, Number(|Matching(s.jobs, f)|))
    case GetPending(limit) => (s, PageOf(ClaimableIds(s.jobs), EffectiveLimit(limit)))
    case GetDelayed(now, limit) => (s, PageOf(DueIds(s.jobs, now), limit))
    case GetStuck(cutoff) => (s, Jobs(StuckIds(s.jobs, cutoff)))
    case Stats => (s, Counters(StatsOf(s.jobs)))
    case Cleanup(cutoff) => var (t, n) := JobStore.Cleanup(s, cutoff); (t, Number(n))
  }

  function MemoryCall(s: Store, c: Call): (Store, Answer) {
    match c
    case Create(job) => var (t, st) := MemoryStore.CreateKeyFirst(s, job); (t, Said(st))
    case GetStuck(cutoff) => (s, Jobs(MemoryStore.StartedBeforeIds(s.jobs, cutoff)))
    case Cleanup(cutoff) => var (t, n) := MemoryStore.CleanupEnded(s, cutoff); (t, Number(n))
    case _ => BoltCall(s, c)
  }

  // ----- The objects answer so -----

  lemma PageOfTop(jobs: map<Id, Job>, pool: set<Id>, limit: nat, js: seq<Job>)
    requires Distinct(js) && IdsOf(js) <= pool && |js| == Min(limit, |pool|)
    ensures Page(|js|, if |js| < limit then IdsOf(js) else {}) == PageOf(pool, limit)
  {
    DistinctCount(js);
    SubsetCount(IdsOf(js), pool);
  }

  method ReadPage(js: seq<Job>, limit: nat) returns (a: Answer)
    ensures a == Page(|js|, if |js| < limit then IdsOf(js) else {})
  {
    a := Page(|js|, if |js| < limit then IdsOf(js) else {});
  }

  // A call that only reads.
  predicate Reads(c: Call) {
    || c.Get? || c.GetByIdempotencyKey? || c.GetResult? || c.GetCheckpoint? || c.List? || c.Count? || c.GetPending?
    || c.GetDelayed? || c.GetStuck? || c.Stats?
  }

  method AskBolt(store: BoltStore.BoltStore, c: Call) returns (a: Answer)
    requires store.Valid() && Reads(c)
    ensures (store.Abs(), a) == BoltCall(store.Abs(), c)
  {
    ghost var jobs := store.Abs().jobs;
    match c {
      case Get(id) => var job := store.Get(id); a := Found(job);
      case GetByIdempotencyKey(key) => var job := store.GetByIdempotencyKey(key); a := Found(job);
      case GetResult(id) => var r := store.GetResult(id); a := FoundResult(r);
      case GetCheckpoint(id) => var data := store.GetCheckpoint(id); a := Data(data);
      case Count(f) => var n := store.Count(f); a := Number(n);
      case GetStuck(cutoff) => var js := store.GetStuck(cutoff, 0); a := Jobs(IdsOf(js));
      case Stats => var q := store.Stats(); a := Counters(q);
      case List(f) =>
        var js := store.List(f);
        PageOfTop(jobs, Matching(jobs, f), EffectiveLimit(f.limit), js);
        a := ReadPage(js, EffectiveLimit(f.limit));
      case GetPending(limit) =>
        var js := store.GetPending(limit);
        ClaimableIsPendingFilter(jobs, limit);
        PageOfTop(jobs, ClaimableIds(jobs), EffectiveLimit(limit), js);
        a := ReadPage(js, EffectiveLimit(limit));
      case GetDelayed(now, limit) =>
        var js := store.GetDelayed(now, limit);
        PageOfTop(jobs, DueIds(jobs, now), limit, js);
        a := ReadPage(js, limit);
    }
  }

  method AskMemory(store: MemoryStore.MemoryStore, c: Call) returns (a: Answer)
    requires store.Valid() && Reads(c)
    ensures (store.Abs(), a) == MemoryCall(store.Abs(), c)
  {
    ghost var jobs := store.Abs().jobs;
    match c {
      case Get(id) => var job := store.Get(id); a := Found(job);
      case GetByIdempotencyKey(key) => var job := store.GetByIdempotencyKey(key); a := Found(job);
      case GetResult(id) => var r := store.GetResult(id); a := FoundResult(r);
      case GetCheckpoint(id) => var data := store.GetCheckpoint(id); a := Data(data);
      case Count(f) => var n := store.Count(f); a := Number(n);
      case GetStuck(cutoff) => var js := store.GetStuck(cutoff, 0); a := Jobs(IdsOf(js));
      case Stats => var q := store.Stats(); a := Counters(q);
      case List(f) =>
        var js := store.List(f);
        PageOfTop(jobs, Matching(jobs, f), EffectiveLimit(f.limit), js);
        a := ReadPage(js, EffectiveLimit(f.limit));
      case GetPending(limit) =>
        var js := store.GetPending(limit);
        ClaimableIsPendingFilter(jobs, limit);
        PageOfTop(jobs, ClaimableIds(jobs), EffectiveLimit(limit), js);
        a := ReadPage(js, EffectiveLimit(limit));
      case GetDelayed(now, limit) =>
        var js := store.GetDelayed(now, limit);
        PageOfTop(jobs, DueIds(jobs, now), limit, js);
        a := ReadPage(js, limit);
    }
  }

  method CallBolt(store: BoltStore.BoltStore, c: Call) returns (a: Answer)
    requires store.Valid()
    modifies store
    ensures store.Valid() && (store.Abs(), a) == BoltCall(old(store.Abs()), c)
  {
    match c {
      case Create(job) => var st := store.Create(job); a := Said(st);
      case Update(job, now) => var st := store.Update(job, now); a := Said(st);
      case SetScheduled(id, now) => var st := store.UpdateState(id, Scheduled, now); a := Said(st);
      case Delete(id) => var st := store.Delete(id); a := Said(st);
      case ClaimJob(id, worker, now) => var yes, st := store.ClaimJob(id, worker, now); a := Claimed(yes, st);
      case SaveResult(r) => store.SaveResult(r); a := Nothing;
      case SaveCheckpoint(id, data) => store.SaveCheckpoint(id, data); a := Nothing;
      case Cleanup(cutoff) => var n := store.Cleanup(cutoff, 0); a := Number(n);
      case _ => a := AskBolt(store, c);
    }
  }

  method CallMemory(store: MemoryStore.MemoryStore, c: Call) returns (a: Answer)
    requires store.Valid()
    modifies store
    ensures store.Valid() && (store.Abs(), a) == MemoryCall(old(store.Abs()), c)
  {
    match c {
      case Create(job) => var st := store.Create(job); a := Said(st);
      case Update(job, now) => var st := store.Update(job, now); a := Said(st);
      case SetScheduled(id, now) => var st := store.UpdateState(id, Scheduled, now); a := Said(st);
      case Delete(id) => var st := store.Delete(id); a := Said(st);
      case ClaimJob(id, worker, now) => var yes, st := store.ClaimJob(id, worker, now); a := Claimed(yes, st);
      case SaveResult(r) => store.SaveResult(r); a := Nothing;
      case SaveCheckpoint(id, data) => store.SaveCheckpoint(id, data); a := Nothing;
      case Cleanup(cutoff) => var n := store.Cleanup(cutoff, 0); a := Number(n);
      case _ => a := AskMemory(store, c);
    }
  }

  // ----- Sequences of calls -----

  // What the protocol can issue: fresh ids, no full-record write of a Running job, and a Cleanup only
  // where the two agree.
  predicate Issued(s: Store, c: Call, created: set<Id>) {
    match c
    case Create(job) => Untouched(job) && job.id !in created
    case Update(job, _) => job.state != Running
    case ClaimJob(_, _, now) => now != ZERO_TIME
    case Cleanup(cutoff) => MemoryStore.SweepsAlike(s.jobs, cutoff)
    case _ => true
  }

  function CreatedAfter(s: Store, c: Call, created: set<Id>): set<Id> {
    if c.Create? && JobStore.Create(s, c.job).1 == Done then created + {c.job.id} else created
  }

  predicate AllIssued(s: Store, calls: seq<Call>, created: set<Id>)
    decreases |calls|
  {
    calls == [] ||
    (Issued(s, calls[0], created) && AllIssued(BoltCall(s, calls[0]).0, calls[1..], CreatedAfter(s, calls[0], created)))
  }

  function BoltRun(s: Store, calls: seq<Call>): (Store, seq<Answer>)
    decreases |calls|
  {
    if calls == [] then (s, [])
    else
      var (mid, a) := BoltCall(s, calls[0]);
      var (end, rest) := BoltRun(mid, calls[1..]);
      (end, [a] + rest)
  }

  function MemoryRun(s: Store, calls: seq<Call>): (Store, seq<Answer>)
    decreases |calls|
  {
    if calls == [] then (s, [])
    else
      var (mid, a) := MemoryCall(s, calls[0]);
      var (end, rest) := MemoryRun(mid, calls[1..]);
      (end, [a] + rest)
  }

  predicate Reachable(s: Store, created: set<Id>) {
    && s.jobs.Keys <= created
    && forall id :: id in s.jobs && s.jobs[id].state == Running ==> s.jobs[id].startedAt != ZERO_TIME
  }

  lemma CallAgrees(s: Store, c: Call, created: set<Id>)
    requires Reachable(s, created) && Issued(s, c, created)
    ensures MemoryCall(s, c) == BoltCall(s, c)
    ensures Reachable(BoltCall(s, c).0, CreatedAfter(s, c, created))
  {
    match c {
      case Create(job) => MemoryStore.CreateAgrees(s, job);
      case GetStuck(cutoff) => MemoryStore.StuckAgrees(s.jobs, cutoff);
      case Cleanup(cutoff) => MemoryStore.CleanupAgrees(s, cutoff);
      case _ =>
    }
    if !Reads(c) {
      StaysReachable(s, c, created);
    }
  }

  lemma StaysReachable(s: Store, c: Call, created: set<Id>)
    requires Reachable(s, created) && Issued(s, c, created) && !Reads(c)
    ensures Reachable(BoltCall(s, c).0, CreatedAfter(s, c, created))
  {
  }

  lemma {:induction false} StoresAgree(s: Store, calls: seq<Call>, created: set<Id>)
    requires Reachable(s, created) && AllIssued(s, calls, created)
    ensures MemoryRun(s, calls) == BoltRun(s, calls)
    decreases |calls|
  {
    if calls != [] {
      CallAgrees(s, calls[0], created);
      StoresAgree(BoltCall(s, calls[0]).0, calls[1..], CreatedAfter(s, calls[0], created));
    }
  }

  method CallBoth(bolt: BoltStore.BoltStore, memory: MemoryStore.MemoryStore, c: Call, ghost created: set<Id>)
    returns (a: Answer, b: Answer)
    requires bolt.Valid() && memory.Valid() && bolt.Abs() == memory.Abs()
    requires Reachable(bolt.Abs(), created) && Issued(bolt.Abs(), c, created)
    modifies bolt, memory
    ensures bolt.Valid() && memory.Valid() && bolt.Abs() == memory.Abs()
    ensures a == b && (bolt.Abs(), a) == BoltCall(old(bolt.Abs()), c)
    ensures Reachable(bolt.Abs(), CreatedAfter(old(bolt.Abs()), c, created))
  {
    CallAgrees(bolt.Abs(), c, created);
    a := CallBolt(bolt, c);
    b := CallMemory(memory, c);
  }

  // Two store objects, driven by the same calls: the answers are the same all the way, and so are the
  // contents at the end.
  method DriveBoth(bolt: BoltStore.BoltStore, memory: MemoryStore.MemoryStore, calls: seq<Call>, ghost created: set<Id>)
    returns (fromBolt: seq<Answer>, fromMemory: seq<Answer>)
    requires bolt.Valid() && memory.Valid() && bolt.Abs() == memory.Abs()
    requires Reachable(bolt.Abs(), created) && AllIssued(bolt.Abs(), calls, created)
    modifies bolt, memory
    ensures bolt.Valid() && memory.Valid() && bolt.Abs() == memory.Abs()
    ensures fromBolt == fromMemory && (bolt.Abs(), fromBolt) == BoltRun(old(bolt.Abs()), calls)
  {
    fromBolt, fromMemory := [], [];
    ghost var sofar := created;
    ghost var goal := BoltRun(bolt.Abs(), calls);
    assert calls[0..] == calls && [] + goal.1 == goal.1;
    for i := 0 to |calls|
      invariant bolt.Valid() && memory.Valid() && bolt.Abs() == memory.Abs() && fromBolt == fromMemory
      invariant Reachable(bolt.Abs(), sofar) && AllIssued(bolt.Abs(), calls[i..], sofar)
      invariant var (end, rest) := BoltRun(bolt.Abs(), calls[i..]); goal == (end, fromBolt + rest)
    {
      assert calls[i..][0] == calls[i] && calls[i..][1..] == calls[i + 1..];
      ghost var next := CreatedAfter(bolt.Abs(), calls[i], sofar);
      var a, b := CallBoth(bolt, memory, calls[i], sofar);
      sofar := next;
      ghost var rest := BoltRun(bolt.Abs(), calls[i + 1..]).1;
      assert fromBolt + ([a] + rest) == fromBolt + [a] + rest;
      fromBolt, fromMemory := fromBolt + [a], fromMemory + [b];
    }
    assert calls[|calls|..] == [] && fromBolt + [] == fromBolt;
  }

  // Both listings of a filter have the length that Count and the limit give, whatever their order.
  lemma ListingsHaveTheSameLength(s: Store, f: JobFilter, bolt: seq<Job>, memory: seq<Job>)
    requires Listing(s, f, f.order, bolt) && Listing(s, f, AnyOrder, memory)
    ensures |bolt| == |memory| == Min(EffectiveLimit(f.limit), |Matching(s.jobs, f)|)
    ensures |Matching(s.jobs, f)| <= EffectiveLimit(f.limit) ==> IdsOf(bolt) == IdsOf(memory)
  {
    DistinctCount(bolt);
    DistinctCount(memory);
    SubsetCount(IdsOf(bolt), Matching(s.jobs, f));
    SubsetCount(IdsOf(memory), Matching(s.jobs, f));
  }
}
