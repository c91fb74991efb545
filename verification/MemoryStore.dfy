// The in-memory store: four maps, visited in any order (persistence/memory_store.go). Its records are
// private copies, so the maps hold values here.
module MemoryStore {
  import opened Core
  import opened JobStore
  import opened Listing

  // ----- Where it is not the common store -----

  // Create records the key before it looks for the id.
  function CreateKeyFirst(s: Store, job: Job): (Store, Status) {
    if job.idempotencyKey != "" && job.idempotencyKey in s.idem then (s, AlreadyExists)
    else
      var keyed := if job.idempotencyKey == "" then s else s.(idem := s.idem[job.idempotencyKey := job.id]);
      if job.id in s.jobs then (keyed, AlreadyExists)
      else (keyed.(jobs := s.jobs[job.id := job]), Done)
  }

  predicate StartedBefore(j: Job, cutoff: Time) {
    j.state == Running && j.startedAt < cutoff
  }

  function StartedBeforeIds(jobs: map<Id, Job>, cutoff: Time): set<Id> {
    set id | id in jobs && StartedBefore(jobs[id], cutoff)
  }

  predicate EndedBefore(j: Job, cutoff: Time) {
    (j.state == Completed || j.state == Failed) && j.completedAt < cutoff
  }

  function EndedBeforeIds(jobs: map<Id, Job>, cutoff: Time): set<Id> {
    set id | id in jobs && EndedBefore(jobs[id], cutoff)
  }

  // The two Creates differ exactly on a stored id that comes with a new key.
  lemma CreateAgrees(s: Store, job: Job)
    ensures CreateKeyFirst(s, job) == JobStore.Create(s, job) <==>
            !(job.id in s.jobs && job.idempotencyKey != "" && job.idempotencyKey !in s.idem)
  {
    if job.id in s.jobs && job.idempotencyKey != "" && job.idempotencyKey !in s.idem {
      assert job.idempotencyKey in CreateKeyFirst(s, job).0.idem;
    }
  }

  // The two GetStucks differ exactly when a Running job has no start time.
  lemma StuckAgrees(jobs: map<Id, Job>, cutoff: Time)
    ensures StartedBeforeIds(jobs, cutoff) == StuckIds(jobs, cutoff) <==>
            forall id :: id in jobs && jobs[id].state == Running && jobs[id].startedAt == ZERO_TIME ==> cutoff <= ZERO_TIME
  {
    if id :| id in jobs && jobs[id].state == Running && jobs[id].startedAt == ZERO_TIME && ZERO_TIME < cutoff {
      assert id in StartedBeforeIds(jobs, cutoff) && id !in StuckIds(jobs, cutoff);
    }
  }

  // No Cancelled job is old enough, and no ended job lacks its time.
  predicate SweepsAlike(jobs: map<Id, Job>, cutoff: Time) {
    forall id :: id in jobs && jobs[id].completedAt < cutoff ==>
      && (jobs[id].state == Cancelled ==> jobs[id].completedAt == ZERO_TIME)
      && (jobs[id].state == Completed || jobs[id].state == Failed ==> jobs[id].completedAt != ZERO_TIME)
  }

  lemma SameIdsSwept(jobs: map<Id, Job>, cutoff: Time)
    ensures EndedBeforeIds(jobs, cutoff) == ExpiredIds(jobs, cutoff) <==> SweepsAlike(jobs, cutoff)
  {
    if EndedBeforeIds(jobs, cutoff) == ExpiredIds(jobs, cutoff) {
      forall id | id in jobs && jobs[id].completedAt < cutoff
        ensures jobs[id].state == Cancelled ==> jobs[id].completedAt == ZERO_TIME
        ensures jobs[id].state == Completed || jobs[id].state == Failed ==> jobs[id].completedAt != ZERO_TIME
      {
        assert id in EndedBeforeIds(jobs, cutoff) <==> id in ExpiredIds(jobs, cutoff);
      }
    }
  }

  lemma RemovalShows(s: Store, a: set<Id>, b: set<Id>)
    requires a <= s.jobs.Keys && b <= s.jobs.Keys && Remove(s, a) == Remove(s, b)
    ensures a == b
  {
    forall id | id in s.jobs ensures id in a <==> id in b {
      assert id in Remove(s, a).jobs <==> id in Remove(s, b).jobs;
    }
  }

  // The two Cleanups, what they leave and what they report, agree exactly then.
  lemma CleanupAgrees(s: Store, cutoff: Time)
    ensures CleanupEnded(s, cutoff) == JobStore.Cleanup(s, cutoff) <==> SweepsAlike(s.jobs, cutoff)
  {
    SameIdsSwept(s.jobs, cutoff);
    if CleanupEnded(s, cutoff) == JobStore.Cleanup(s, cutoff) {
      RemovalShows(s, EndedBeforeIds(s.jobs, cutoff), ExpiredIds(s.jobs, cutoff));
    }
  }

  // GetDelayed tests its limit only after it has looked at a job.
  predicate SomeDue(jobs: map<Id, Job>, now: Time, limit: int, js: seq<Job>) {
    && Snapshot(jobs, js) && IdsOf(js) <= DueIds(jobs, now)
    && (limit >= 1 ==> |js| == Min(limit, |DueIds(jobs, now)|))
    && (limit < 1 ==> |js| <= 1)
  }

  function CleanupEnded(s: Store, cutoff: Time): (Store, nat) {
    (Remove(s, EndedBeforeIds(s.jobs, cutoff)), |EndedBeforeIds(s.jobs, cutoff)|)
  }

  lemma SomeDueInFields(jobs: map<Id, Job>, now: Time, limit: int, js: seq<Job>)
    requires SomeDue(jobs, now, limit, js)
    ensures forall j :: j in js ==> j.id in jobs && jobs[j.id] == j && j.state == Delayed && j.scheduledAt <= now
    ensures limit >= 1 ==> forall id :: id in jobs && jobs[id].state == Delayed && jobs[id].scheduledAt <= now && id !in IdsOf(js) ==>
              |js| == limit
  {
    forall j | j in js ensures j.id in DueIds(jobs, now) {
      assert j.id in IdsOf(js);
    }
    if id :| limit >= 1 && id in DueIds(jobs, now) && id !in IdsOf(js) && |js| < limit {
      DistinctCount(js);
      SubsetCount(IdsOf(js), DueIds(jobs, now));
    }
  }

  lemma CleanupInFields(s: Store, cutoff: Time)
    ensures var (end, n) := CleanupEnded(s, cutoff);
            var gone := s.jobs.Keys - end.jobs.Keys;
            && n == |gone| && OnlyWithout(s, end, gone)
            && forall id :: id in gone <==>
                 id in s.jobs && s.jobs[id].completedAt < cutoff && (s.jobs[id].state == Completed || s.jobs[id].state == Failed)
  {
    RemoveInFields(s, EndedBeforeIds(s.jobs, cutoff));
  }

  // ----- The class -----

  method MapKeys<V>(m: map<Id, V>) returns (keys: seq<Id>)
    ensures NoRepeats(keys) && Elems(keys) == m.Keys
  {
    keys := [];
    var left := m.Keys;
    while left != {}
      invariant left <= m.Keys && Elems(keys) == m.Keys - left && NoRepeats(keys)
      decreases left
    {
      var k :| k in left;
      ElemsAppend(keys, k);
      keys := keys + [k];
      left := left - {k};
    }
  }

  class MemoryStore {
    var jobs: map<Id, Job>
    var results: map<Id, JobResult>
    var checkpoints: map<Id, seq<bv8>>
    var idempotency: map<string, Id>

    ghost function Abs(): Store
      reads this
    {
      Store(jobs, results, checkpoints, idempotency)
    }

    ghost predicate Valid()
      reads this
    {
      KeyedById(Abs())
    }

    constructor ()
      ensures Valid() && Abs() == EMPTY
    {
      jobs, results, checkpoints, idempotency := map[], map[], map[], map[];
    }

    method Create(job: Job) returns (status: Status)
      requires Valid()
      modifies this
      ensures Valid() && (Abs(), status) == CreateKeyFirst(old(Abs()), job)
      ensures status == Done <==>
                job.id !in old(Abs()).jobs && (job.idempotencyKey == "" || job.idempotencyKey !in old(Abs()).idem)
      ensures status != Done ==> status == AlreadyExists && Abs().jobs == old(Abs()).jobs
      ensures status == Done ==> Abs().jobs == old(Abs()).jobs[job.id := job]
      ensures Abs() == old(Abs()).(jobs := Abs().jobs, idem := Abs().idem)
      ensures Abs().idem == if job.idempotencyKey == "" || job.idempotencyKey in old(Abs()).idem then old(Abs()).idem
                            else old(Abs()).idem[job.idempotencyKey := job.id]
    {
      if job.idempotencyKey != "" {
        if job.idempotencyKey in idempotency {
          return AlreadyExists;
        }
        idempotency := idempotency[job.idempotencyKey := job.id];
      }
      if job.id in jobs {
        return AlreadyExists;
      }
      jobs := jobs[job.id := job];
      status := Done;
    }

    method Get(id: Id) returns (job: Option<Job>)
      ensures job == JobStore.Get(Abs(), id)
      ensures job == if id in Abs().jobs then Some(Abs().jobs[id]) else None
    {
      job := if id in jobs then Some(jobs[id]) else None;
    }

    method GetByIdempotencyKey(key: string) returns (job: Option<Job>)
      ensures job == JobStore.GetByIdempotencyKey(Abs(), key)
      ensures job == if key in Abs().idem && Abs().idem[key] in Abs().jobs then Some(Abs().jobs[Abs().idem[key]]) else None
    {
      if key !in idempotency {
        return None;
      }
      var id := idempotency[key];
      if id !in jobs {
        return None;
      }
      job := Some(jobs[id]);
    }

    method Update(job: Job, now: Time) returns (status: Status)
      requires Valid()
      modifies this`jobs
      ensures Valid() && (Abs(), status) == JobStore.Update(old(Abs()), job, now)
      ensures status == if job.id in old(Abs()).jobs then Done else NotFound
      ensures Abs() == if status == Done then old(Abs()).(jobs := old(Abs()).jobs[job.id := job.(updatedAt := now)]) else old(Abs())
    {
      if job.id !in jobs {
        return NotFound;
      }
      jobs := jobs[job.id := job.(updatedAt := now)];
      status := Done;
    }

    method UpdateState(id: Id, state: JobState, now: Time) returns (status: Status)
      requires Valid()
      modifies this`jobs
      ensures Valid() && (Abs(), status) == JobStore.UpdateState(old(Abs()), id, state, now)
      ensures status == if id in old(Abs()).jobs then Done else NotFound
      ensures status == Done ==>
                Abs() == old(Abs()).(jobs := old(Abs()).jobs[id := old(Abs()).jobs[id].(state := state, updatedAt := now)])
      ensures status != Done ==> Abs() == old(Abs())
    {
      if id !in jobs {
        return NotFound;
      }
      var job := jobs[id];
      job := job.(state := state);
      job := job.(updatedAt := now);
      jobs := jobs[id := job];
      status := Done;
    }

    method Delete(id: Id) returns (status: Status)
      requires Valid()
      modifies this
      ensures Valid() && (Abs(), status) == JobStore.Delete(old(Abs()), id)
      ensures status == if id in old(Abs()).jobs then Done else NotFound
      ensures status == Done ==>
                var was := old(Abs());
                Abs() == Store(was.jobs - {id}, was.results - {id}, was.checkpoints - {id},
                               if was.jobs[id].idempotencyKey == "" then was.idem else was.idem - {was.jobs[id].idempotencyKey})
      ensures status != Done ==> Abs() == old(Abs())
    {
      if id !in jobs {
        return NotFound;
      }
      var job := jobs[id];
      ghost var was := Abs();
      if job.idempotencyKey != "" {
        idempotency := idempotency - {job.idempotencyKey};
      }
      jobs := jobs - {id};
      results := results - {id};
      checkpoints := checkpoints - {id};
      status := Done;
      RemoveOne(was, id);
    }

    // The filter's order is ignored.
    method List(filter: JobFilter) returns (result: seq<Job>)
      requires Valid()
      ensures JobStore.Listing(Abs(), filter, AnyOrder, result)
    {
      result := [];
      var limit := if filter.limit <= 0 then 100 else filter.limit;
      ghost var pool := Matching(jobs, filter);
      var keys := MapKeys(jobs);
      var i := 0;
      while i < |keys|
        invariant 0 <= i <= |keys| && forall k :: k in keys ==> k in jobs
        invariant result == Collected(jobs, keys[..i], pool)
        invariant |result| < limit
      {
        assert keys[i] in Elems(keys);
        CollectOneMore(jobs, keys, i, pool);
        var matches := MatchesFilter(jobs[keys[i]], filter);
        if matches {
          result := result + [jobs[keys[i]]];
        }
        i := i + 1;
        if |result| >= limit {
          break;
        }
      }
      PrefixIsListing(jobs, keys, i, pool, limit, result);
    }

    method Count(filter: JobFilter) returns (count: nat)
      requires Valid()
      ensures count == |Matching(Abs().jobs, filter)|
    {
      count := 0;
      ghost var pool := Matching(jobs, filter);
      var keys := MapKeys(jobs);
      for i := 0 to |keys|
        invariant forall k :: k in keys ==> k in jobs
        invariant count == |Collected(jobs, keys[..i], pool)|
      {
        assert keys[i] in Elems(keys);
        CollectOneMore(jobs, keys, i, pool);
        var matches := MatchesFilter(jobs[keys[i]], filter);
        if matches {
          count := count + 1;
        }
      }
      assert keys[..|keys|] == keys;
      CollectedFacts(jobs, keys, pool);
      DistinctCount(Collected(jobs, keys, pool));
      assert pool * Elems(keys) == pool;
    }

    method GetPending(limit: int) returns (result: seq<Job>)
      requires Valid()
      ensures JobStore.Listing(Abs(), PendingFilter(limit), AnyOrder, result)
    {
      result := List(PendingFilter(limit));
    }

    method GetDelayed(now: Time, limit: int) returns (result: seq<Job>)
      requires Valid()
      ensures SomeDue(Abs().jobs, now, limit, result)
    {
      result := [];
      ghost var due := DueIds(jobs, now);
      var keys := MapKeys(jobs);
      var i := 0;
      while i < |keys|
        invariant 0 <= i <= |keys| && forall k :: k in keys ==> k in jobs
        invariant result == Collected(jobs, keys[..i], due)
        invariant i > 0 ==> |result| < limit
        invariant i == 0 ==> result == []
      {
        assert keys[i] in Elems(keys);
        CollectOneMore(jobs, keys, i, due);
        var job := jobs[keys[i]];
        if job.state == Delayed && job.scheduledAt <= now {
          result := result + [job];
        }
        i := i + 1;
        if |result| >= limit {
          break;
        }
      }
      if limit >= 1 {
        PrefixIsListing(jobs, keys, i, due, limit, result);
      } else {
        CollectedFacts(jobs, keys[..i], due);
      }
    }

    method GetStuck(now: Time, visibilityTimeout: Duration) returns (result: seq<Job>)
      requires Valid()
      ensures Snapshot(Abs().jobs, result) && IdsOf(result) == StartedBeforeIds(Abs().jobs, now - visibilityTimeout)
      ensures forall id :: id in IdsOf(result) <==>
                id in Abs().jobs && Abs().jobs[id].state == Running && Abs().jobs[id].startedAt < now - visibilityTimeout
    {
      var cutoff := now - visibilityTimeout;
      result := [];
      ghost var stuck := StartedBeforeIds(jobs, cutoff);
      var keys := MapKeys(jobs);
      for i := 0 to |keys|
        invariant forall k :: k in keys ==> k in jobs
        invariant result == Collected(jobs, keys[..i], stuck)
      {
        assert keys[i] in Elems(keys);
        CollectOneMore(jobs, keys, i, stuck);
        var job := jobs[keys[i]];
        if job.state == Running && job.startedAt < cutoff {
          result := result + [job];
        }
      }
      assert keys[..|keys|] == keys;
      CollectedFacts(jobs, keys, stuck);
      assert stuck * Elems(keys) == stuck;
    }

    method ClaimJob(id: Id, workerId: string, now: Time) returns (claimed: bool, status: Status)
      requires Valid()
      modifies this`jobs
      ensures Valid() && (Abs(), claimed, status) == JobStore.ClaimJob(old(Abs()), id, workerId, now)
      ensures claimed <==> id in old(Abs()).jobs && (old(Abs()).jobs[id].state == Pending || old(Abs()).jobs[id].state == Scheduled)
      ensures status == if id in old(Abs()).jobs then Done else NotFound
      ensures !claimed ==> Abs() == old(Abs())
      ensures claimed ==>
                var was := old(Abs()).jobs[id];
                var held := was.(state := Running, workerId := workerId, startedAt := now, updatedAt := now, attempt := was.attempt + 1);
                Abs() == old(Abs()).(jobs := old(Abs()).jobs[id := held])
    {
      if id !in jobs {
        return false, NotFound;
      }
      var job := jobs[id];
      if job.state != Scheduled && job.state != Pending {
        return false, Done;
      }
      job := job.(state := Running, workerId := workerId, startedAt := now);
      job := job.(updatedAt := job.startedAt, attempt := job.attempt + 1);
      jobs := jobs[id := job];
      claimed, status := true, Done;
    }

    method SaveResult(r: JobResult)
      requires Valid()
      modifies this`results
      ensures Valid() && Abs() == JobStore.SaveResult(old(Abs()), r)
      ensures Abs() == old(Abs()).(results := Abs().results)
      ensures JobStore.GetResult(Abs(), r.jobId) == Some(r) && r.jobId in Abs().results && Abs().results[r.jobId] == r
      ensures forall id :: id != r.jobId ==> JobStore.GetResult(Abs(), id) == JobStore.GetResult(old(Abs()), id)
    {
      results := results[r.jobId := r];
    }

    method GetResult(id: Id) returns (r: Option<JobResult>)
      ensures r == JobStore.GetResult(Abs(), id)
      ensures r == if id in Abs().results then Some(Abs().results[id]) else None
    {
      r := if id in results then Some(results[id]) else None;
    }

    method SaveCheckpoint(id: Id, data: seq<bv8>)
      requires Valid()
      modifies this`checkpoints
      ensures Valid() && Abs() == JobStore.SaveCheckpoint(old(Abs()), id, data)
      ensures Abs() == old(Abs()).(checkpoints := Abs().checkpoints)
      ensures JobStore.GetCheckpoint(Abs(), id) == data && id in Abs().checkpoints && Abs().checkpoints[id] == data
      ensures forall other :: other != id ==> JobStore.GetCheckpoint(Abs(), other) == JobStore.GetCheckpoint(old(Abs()), other)
    {
      checkpoints := checkpoints[id := data];
    }

    method GetCheckpoint(id: Id) returns (data: seq<bv8>)
      ensures data == JobStore.GetCheckpoint(Abs(), id)
      ensures data == if id in Abs().checkpoints then Abs().checkpoints[id] else []
    {
      data := if id in checkpoints then checkpoints[id] else [];
    }

    method Stats() returns (stats: QueueStats)
      requires Valid()
      ensures Counts(Abs().jobs, stats)
    {
      var all := jobs;
      stats := QueueStats(0, 0, 0, 0, 0, 0, 0, 0, |all|);
      ghost var counted := QueueStats(0, 0, 0, 0, 0, 0, 0, 0, 0);
      var keys := MapKeys(all);
      CountNone(all, keys);
      for i := 0 to |keys|
        invariant Counted(all, keys, i, counted) && stats == counted.(totalJobs := |all|)
      {
        assert keys[i] in Elems(keys);
        var state := all[keys[i]].state;
        CountNext(all, keys, i, counted);
        BumpApart(counted, |all|, state);
        BumpApart(counted, counted.totalJobs + 1, state);
        counted := Bump(counted.(totalJobs := counted.totalJobs + 1), state);
        stats := Bump(stats, state);
      }
      CountAll(all, keys, counted);
    }

    // One turn of Cleanup's loop.
    method DropIfEnded(id: Id, cutoff: Time) returns (dropped: bool)
      requires id in jobs
      modifies this
      ensures dropped == EndedBefore(old(jobs)[id], cutoff)
      ensures Abs() == if dropped then DropOne(old(Abs()), id) else old(Abs())
    {
      var job := jobs[id];
      if (job.state == Completed || job.state == Failed) && job.completedAt < cutoff {
        if job.idempotencyKey != "" {
          idempotency := idempotency - {job.idempotencyKey};
        }
        jobs := jobs - {id};
        results := results - {id};
        checkpoints := checkpoints - {id};
        return true;
      }
      return false;
    }

    // Cleanup's loop: it deletes while it iterates.
    method SweepKeys(keys: seq<Id>, cutoff: Time) returns (removed: nat)
      requires NoRepeats(keys) && Elems(keys) <= jobs.Keys
      modifies this
      ensures (Abs(), removed) == Swept(old(Abs()), keys, cutoff)
    {
      removed := 0;
      assert forall k :: k in keys ==> k in Elems(keys);
      for i := 0 to |keys|
        invariant forall k :: i <= k < |keys| ==> keys[k] in jobs
        invariant var (end, left) := Swept(Abs(), keys[i..], cutoff);
                  Swept(old(Abs()), keys, cutoff) == (end, removed + left)
      {
        SweptStep(Abs(), keys, i, cutoff);
        var dropped := DropIfEnded(keys[i], cutoff);
        if dropped {
          removed := removed + 1;
        }
      }
    }

    method Cleanup(now: Time, retention: Duration) returns (removed: nat)
      requires Valid()
      modifies this
      ensures Valid() && (Abs(), removed) == CleanupEnded(old(Abs()), now - retention)
    {
      var keys := MapKeys(jobs);
      SweptAll(Abs(), keys, now - retention);
      removed := SweepKeys(keys, now - retention);
    }
  }

  // The store after Cleanup's loop over `keys`, and how many jobs it dropped.
  function Swept(s: Store, keys: seq<Id>, cutoff: Time): (Store, nat)
    decreases |keys|
  {
    if keys == [] then (s, 0)
    else if keys[0] in s.jobs && EndedBefore(s.jobs[keys[0]], cutoff) then
      var (end, n) := Swept(DropOne(s, keys[0]), keys[1..], cutoff);
      (end, n + 1)
    else Swept(s, keys[1..], cutoff)
  }

  lemma SweptStep(s: Store, keys: seq<Id>, i: nat, cutoff: Time)
    requires i < |keys| && keys[i] in s.jobs && NoRepeats(keys)
    ensures var dropped := EndedBefore(s.jobs[keys[i]], cutoff);
            var mid := if dropped then DropOne(s, keys[i]) else s;
            var (end, n) := Swept(mid, keys[i + 1..], cutoff);
            && Swept(s, keys[i..], cutoff) == (end, n + if dropped then 1 else 0)
            && forall k :: i < k < |keys| && keys[k] in s.jobs ==> keys[k] in mid.jobs
  {
    assert keys[i..][0] == keys[i] && keys[i..][1..] == keys[i + 1..];
  }

  lemma RemoveInTwo(s: Store, id: Id, ids: set<Id>)
    requires id in s.jobs && id !in ids
    ensures Remove(DropOne(s, id), ids) == Remove(s, {id} + ids)
  {
    var key := s.jobs[id].idempotencyKey;
    assert KeysOf(s.jobs, {id} + ids) == KeysOf(s.jobs - {id}, ids) + if key == "" then {} else {key};
    assert s.jobs - {id} - ids == s.jobs - ({id} + ids);
    assert s.results - {id} - ids == s.results - ({id} + ids);
    assert s.checkpoints - {id} - ids == s.checkpoints - ({id} + ids);
  }

  // The ended jobs among the keys after the head.
  lemma EndedSplit(s: Store, head: Id, rest: seq<Id>, cutoff: Time)
    requires head !in Elems(rest)
    ensures var all, later := EndedBeforeIds(s.jobs, cutoff) * Elems([head] + rest), EndedBeforeIds(s.jobs, cutoff) * Elems(rest);
            && all == (if head in EndedBeforeIds(s.jobs, cutoff) then {head} + later else later)
            && EndedBeforeIds(s.jobs - {head}, cutoff) * Elems(rest) == later
            && head !in later
  {
    assert Elems([head] + rest) == {head} + Elems(rest);
  }

  lemma SweptHead(s: Store, head: Id, rest: seq<Id>, later: set<Id>, cutoff: Time)
    requires head in EndedBeforeIds(s.jobs, cutoff) && head !in later
    requires Swept(DropOne(s, head), rest, cutoff) == (Remove(DropOne(s, head), later), |later|)
    ensures Swept(s, [head] + rest, cutoff) == (Remove(s, {head} + later), |{head} + later|)
  {
    assert ([head] + rest)[0] == head && ([head] + rest)[1..] == rest;
    RemoveInTwo(s, head, later);
  }

  lemma {:induction false} SweptIsRemove(s: Store, keys: seq<Id>, cutoff: Time)
    requires NoRepeats(keys)
    ensures var ids := EndedBeforeIds(s.jobs, cutoff) * Elems(keys);
            Swept(s, keys, cutoff) == (Remove(s, ids), |ids|)
    decreases |keys|
  {
    if keys == [] {
      RemoveNone(s);
    } else {
      var head, rest := keys[0], keys[1..];
      assert keys == [head] + rest;
      EndedSplit(s, head, rest, cutoff);
      if head in EndedBeforeIds(s.jobs, cutoff) {
        SweptIsRemove(DropOne(s, head), rest, cutoff);
        SweptHead(s, head, rest, EndedBeforeIds(s.jobs, cutoff) * Elems(rest), cutoff);
      } else {
        SweptIsRemove(s, rest, cutoff);
      }
    }
  }

  lemma SweptAll(s: Store, keys: seq<Id>, cutoff: Time)
    requires NoRepeats(keys) && Elems(keys) == s.jobs.Keys && KeyedById(s)
    ensures Swept(s, keys, cutoff) == CleanupEnded(s, cutoff) && KeyedById(CleanupEnded(s, cutoff).0)
  {
    SweptIsRemove(s, keys, cutoff);
    assert EndedBeforeIds(s.jobs, cutoff) * Elems(keys) == EndedBeforeIds(s.jobs, cutoff);
  }

  // A loop that stops at the limit, or at the end, has a listing.
  lemma PrefixIsListing(jobs: map<Id, Job>, keys: seq<Id>, i: nat, pool: set<Id>, limit: nat, js: seq<Job>)
    requires i <= |keys| && NoRepeats(keys) && Elems(keys) == jobs.Keys && pool <= jobs.Keys
    requires forall k :: k in keys ==> k in jobs && jobs[k].id == k
    requires js == Collected(jobs, keys[..i], pool)
    requires |js| <= limit && (i == |keys| || |js| == limit)
    ensures TopOf(jobs, pool, limit, AnyOrder, js)
  {
    CollectedFacts(jobs, keys[..i], pool);
    DistinctCount(js);
    SubsetCount(IdsOf(js), pool);
    if i == |keys| {
      assert keys[..i] == keys && pool * Elems(keys) == pool;
    }
  }
}
