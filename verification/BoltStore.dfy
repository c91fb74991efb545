// The BoltDB store: encoded records in buckets, and the index bucket from idempotency keys to job
// ids (persistence/bolt_store.go). One method is one transaction; the clock is a parameter.
module BoltStore {
  import opened Core
  import opened JobStore
  import opened Listing

  type Bytes = seq<bv8>

  // encodeJob, decodeJob, encodeResult, decodeResult: any inverse pairs.
  datatype Codec = Codec(
    encodeJob: Job -> Bytes,
    decodeJob: Bytes -> Option<Job>,
    encodeResult: JobResult -> Bytes,
    decodeResult: Bytes -> Option<JobResult>)
  {
    ghost predicate Inverse() {
      && (forall j :: decodeJob(encodeJob(j)) == Some(j))
      && (forall r :: decodeResult(encodeResult(r)) == Some(r))
    }
  }

  predicate JobsDecode(codec: Codec, bucket: map<Id, Bytes>) {
    forall id :: id in bucket ==> codec.decodeJob(bucket[id]).Some? && codec.decodeJob(bucket[id]).value.id == id
  }

  function DecodeJobs(codec: Codec, bucket: map<Id, Bytes>): map<Id, Job>
    requires JobsDecode(codec, bucket)
  {
    map id | id in bucket :: codec.decodeJob(bucket[id]).value
  }

  predicate ResultsDecode(codec: Codec, bucket: map<Id, Bytes>) {
    forall id :: id in bucket ==> codec.decodeResult(bucket[id]).Some?
  }

  function DecodeResults(codec: Codec, bucket: map<Id, Bytes>): map<Id, JobResult>
    requires ResultsDecode(codec, bucket)
  {
    map id | id in bucket :: codec.decodeResult(bucket[id]).value
  }

  lemma DecodeWithout(codec: Codec, jobs: map<Id, Bytes>, results: map<Id, Bytes>, ids: set<Id>)
    requires JobsDecode(codec, jobs) && ResultsDecode(codec, results)
    ensures JobsDecode(codec, jobs - ids) && DecodeJobs(codec, jobs - ids) == DecodeJobs(codec, jobs) - ids
    ensures ResultsDecode(codec, results - ids) && DecodeResults(codec, results - ids) == DecodeResults(codec, results) - ids
  {
  }

  // The keys a cursor visits, in key order.
  method CursorKeys(bucket: map<Id, Bytes>) returns (keys: seq<Id>)
    ensures Ascending(keys) && Elems(keys) == bucket.Keys
  {
    keys := [];
    var left := bucket.Keys;
    while left != {}
      invariant left <= bucket.Keys && Elems(keys) == bucket.Keys - left
      invariant Ascending(keys)
      invariant forall k, l :: k in keys && l in left ==> k < l
      decreases left
    {
      var least := Least(left);
      ElemsAppend(keys, least);
      keys := keys + [least];
      left := left - {least};
    }
  }

  method Least(ids: set<Id>) returns (least: Id)
    requires ids != {}
    ensures least in ids && forall id :: id in ids ==> least <= id
  {
    least :| least in ids;
    var left := ids - {least};
    while left != {}
      invariant least in ids && left <= ids
      invariant forall id :: id in ids && id !in left ==> least <= id
      decreases left
    {
      var id :| id in left;
      if id < least {
        least := id;
      }
      left := left - {id};
    }
  }

  // The first due jobs in key order.
  predicate FirstDue(jobs: map<Id, Job>, now: Time, limit: int, js: seq<Job>) {
    && Snapshot(jobs, js) && IdsOf(js) <= DueIds(jobs, now)
    && |js| == Min(if limit < 0 then 0 else limit, |DueIds(jobs, now)|)
    && forall id, j :: id in DueIds(jobs, now) && id !in IdsOf(js) && j in js ==> j.id < id
  }

  lemma FirstDueInFields(jobs: map<Id, Job>, now: Time, limit: int, js: seq<Job>)
    requires FirstDue(jobs, now, limit, js)
    ensures forall j :: j in js ==> j.id in jobs && jobs[j.id] == j && j.state == Delayed && j.scheduledAt <= now
    ensures forall id, j :: id in jobs && jobs[id].state == Delayed && jobs[id].scheduledAt <= now && id !in IdsOf(js) ==>
              |js| >= limit && (j in js ==> j.id < id)
  {
    forall j | j in js ensures j.id in DueIds(jobs, now) {
      assert j.id in IdsOf(js);
    }
    if id :| id in DueIds(jobs, now) && id !in IdsOf(js) && |js| < limit {
      DistinctCount(js);
      SubsetCount(IdsOf(js), DueIds(jobs, now));
    }
  }

  class BoltStore {
    const codec: Codec
    var jobs: map<Id, Bytes>
    var results: map<Id, Bytes>
    var checkpoints: map<Id, Bytes>
    var idempotency: map<string, Id>

    ghost predicate Valid()
      reads this
    {
      codec.Inverse() && JobsDecode(codec, jobs) && ResultsDecode(codec, results)
    }

    ghost function Abs(): Store
      reads this
      requires Valid()
    {
      Store(DecodeJobs(codec, jobs), DecodeResults(codec, results), checkpoints, idempotency)
    }

    constructor (codec: Codec)
      requires codec.Inverse()
      ensures Valid() && Abs() == EMPTY
    {
      this.codec := codec;
      jobs, results, checkpoints, idempotency := map[], map[], map[], map[];
    }

    method Create(job: Job) returns (status: Status)
      requires Valid()
      modifies this
      ensures Valid() && (Abs(), status) == JobStore.Create(old(Abs()), job)
      ensures status == Done <==>
                job.id !in old(Abs()).jobs && (job.idempotencyKey == "" || job.idempotencyKey !in old(Abs()).idem)
      ensures status == Done ==>
                Abs() == old(Abs()).(jobs := old(Abs()).jobs[job.id := job],
                                     idem := if job.idempotencyKey == "" then old(Abs()).idem
                                             else old(Abs()).idem[job.idempotencyKey := job.id])
      ensures status != Done ==> status == AlreadyExists && Abs() == old(Abs())
    {
      if job.idempotencyKey != "" && job.idempotencyKey in idempotency {
        return AlreadyExists;
      }
      if job.id in jobs {
        return AlreadyExists;
      }
      jobs := jobs[job.id := codec.encodeJob(job)];
      if job.idempotencyKey != "" {
        idempotency := idempotency[job.idempotencyKey := job.id];
      }
      status := Done;
      assert Abs().jobs == old(Abs()).jobs[job.id := job];
    }

    method Get(id: Id) returns (job: Option<Job>)
      requires Valid()
      ensures job == JobStore.Get(Abs(), id)
      ensures job == if id in Abs().jobs then Some(Abs().jobs[id]) else None
    {
      if id !in jobs {
        return None;
      }
      job := codec.decodeJob(jobs[id]);
    }

    method GetByIdempotencyKey(key: string) returns (job: Option<Job>)
      requires Valid()
      ensures job == JobStore.GetByIdempotencyKey(Abs(), key)
      ensures job == if key in Abs().idem && Abs().idem[key] in Abs().jobs then Some(Abs().jobs[Abs().idem[key]]) else None
    {
      if key !in idempotency {
        return None;
      }
      var id := idempotency[key];
      if id !in jobs {
        return None;
      }
      job := codec.decodeJob(jobs[id]);
    }

    method Update(job: Job, now: Time) returns (status: Status)
      requires Valid()
      modifies this
      ensures Valid() && (Abs(), status) == JobStore.Update(old(Abs()), job, now)
      ensures status == if job.id in old(Abs()).jobs then Done else NotFound
      ensures Abs() == if status == Done then old(Abs()).(jobs := old(Abs()).jobs[job.id := job.(updatedAt := now)]) else old(Abs())
    {
      var stamped := job.(updatedAt := now);
      if job.id !in jobs {
        return NotFound;
      }
      jobs := jobs[job.id := codec.encodeJob(stamped)];
      status := Done;
      assert Abs().jobs == old(Abs()).jobs[job.id := stamped];
    }

    method UpdateState(id: Id, state: JobState, now: Time) returns (status: Status)
      requires Valid()
      modifies this
      ensures Valid() && (Abs(), status) == JobStore.UpdateState(old(Abs()), id, state, now)
      ensures status == if id in old(Abs()).jobs then Done else NotFound
      ensures status == Done ==>
                Abs() == old(Abs()).(jobs := old(Abs()).jobs[id := old(Abs()).jobs[id].(state := state, updatedAt := now)])
      ensures status != Done ==> Abs() == old(Abs())
    {
      if id !in jobs {
        return NotFound;
      }
      var job := codec.decodeJob(jobs[id]).value;
      job := job.(state := state, updatedAt := now);
      jobs := jobs[id := codec.encodeJob(job)];
      status := Done;
      assert Abs().jobs == old(Abs()).jobs[id := job];
    }

    method Delete(id: Id) returns (status: Status)
      requires Valid()
      modifies this
      ensures Valid() && (Abs(), status) == JobStore.Delete(old(Abs()), id)
      ensures status == if id in old(Abs()).jobs then Done else NotFound
      ensures status == Done ==>
                var was := old(Abs());
                Abs() == Store(was.jobs - {id}, was.results - {id}, was.checkpoints - {id},
                               if was.jobs[id].idempotencyKey == "" then was.idem else was.idem - {was.jobs[id].idempotencyKey})
      ensures status != Done ==> Abs() == old(Abs())
    {
      if id !in jobs {
        return NotFound;
      }
      var job := codec.decodeJob(jobs[id]).value;
      ghost var was := Abs();
      if job.idempotencyKey != "" {
        idempotency := idempotency - {job.idempotencyKey};
      }
      checkpoints := checkpoints - {id};
      results := results - {id};
      jobs := jobs - {id};
      status := Done;
      DecodeWithout(codec, old(jobs), old(results), {id});
      RemoveOne(was, id);
    }

    method List(filter: JobFilter) returns (result: seq<Job>)
      requires Valid()
      ensures JobStore.Listing(Abs(), filter, filter.order, result)
      ensures InOrder(filter.order, result) && NoneBefore(Abs().jobs, Matching(Abs().jobs, filter), filter.order, result)
    {
      result := [];
      var limit := if filter.limit <= 0 then 100 else filter.limit;
      ghost var all, pool := Abs().jobs, Matching(Abs().jobs, filter);
      var keys := CursorKeys(jobs);
      for i := 0 to |keys|
        invariant forall k :: k in keys ==> k in all
        invariant result == Collected(all, keys[..i], pool)
      {
        assert keys[i] in Elems(keys);
        var job := codec.decodeJob(jobs[keys[i]]).value;
        var matches := MatchesFilter(job, filter);
        CollectOneMore(all, keys, i, pool);
        if matches {
          result := result + [job];
        }
      }
      assert keys[..|keys|] == keys;
      CollectedFacts(all, keys, pool);
      var sorted := SortJobs(result, filter.order);
      PermutedSnapshot(all, result, sorted);
      result := sorted;
      TruncatedIsTop(all, pool, EffectiveLimit(filter.limit), filter.order, result);
      if |result| > limit {
        result := result[..limit];
      }
    }

    method Count(filter: JobFilter) returns (count: nat)
      requires Valid()
      ensures count == |Matching(Abs().jobs, filter)|
    {
      count := 0;
      ghost var all, pool := Abs().jobs, Matching(Abs().jobs, filter);
      var keys := CursorKeys(jobs);
      for i := 0 to |keys|
        invariant forall k :: k in keys ==> k in all
        invariant count == |Collected(all, keys[..i], pool)|
      {
        assert keys[i] in Elems(keys);
        var matches := MatchesFilter(codec.decodeJob(jobs[keys[i]]).value, filter);
        CollectOneMore(all, keys, i, pool);
        if matches {
          count := count + 1;
        }
      }
      assert keys[..|keys|] == keys;
      CollectedFacts(all, keys, pool);
      DistinctCount(Collected(all, keys, pool));
      assert pool * Elems(keys) == pool;
    }

    method GetPending(limit: int) returns (result: seq<Job>)
      requires Valid()
      ensures JobStore.Listing(Abs(), PendingFilter(limit), PriorityAsc, result)
      ensures QueueOrder(result) && NoneAhead(Abs().jobs, result)
    {
      var listed := List(PendingFilter(limit));
      result := SortJobs(listed, PriorityAsc);
      PermutedSnapshot(Abs().jobs, listed, result);
      PendingInFields(Abs(), limit, result);
    }

    method GetDelayed(now: Time, limit: int) returns (result: seq<Job>)
      requires Valid()
      ensures FirstDue(Abs().jobs, now, limit, result)
    {
      result := [];
      ghost var all, due := Abs().jobs, DueIds(Abs().jobs, now);
      var keys := CursorKeys(jobs);
      var i := 0;
      while i < |keys| && |result| < limit
        invariant 0 <= i <= |keys|
        invariant forall k :: k in keys ==> k in all
        invariant result == Collected(all, keys[..i], due)
        invariant |result| <= if limit < 0 then 0 else limit
      {
        assert keys[i] in Elems(keys);
        var job := codec.decodeJob(jobs[keys[i]]).value;
        CollectOneMore(all, keys, i, due);
        if job.state == Delayed && job.scheduledAt <= now {
          result := result + [job];
        }
        i := i + 1;
      }
      PrefixIsFirstDue(all, keys, i, now, limit, result);
    }

    method GetStuck(now: Time, visibilityTimeout: Duration) returns (result: seq<Job>)
      requires Valid()
      ensures Snapshot(Abs().jobs, result) && IdsOf(result) == StuckIds(Abs().jobs, now - visibilityTimeout)
      ensures forall id :: id in IdsOf(result) <==>
                && id in Abs().jobs && Abs().jobs[id].state == Running
                && Abs().jobs[id].startedAt != 0 && Abs().jobs[id].startedAt < now - visibilityTimeout
    {
      var cutoff := now - visibilityTimeout;
      result := [];
      ghost var all, stuck := Abs().jobs, StuckIds(Abs().jobs, now - visibilityTimeout);
      var keys := CursorKeys(jobs);
      for i := 0 to |keys|
        invariant forall k :: k in keys ==> k in all
        invariant result == Collected(all, keys[..i], stuck)
      {
        assert keys[i] in Elems(keys);
        var job := codec.decodeJob(jobs[keys[i]]).value;
        CollectOneMore(all, keys, i, stuck);
        if job.state == Running && job.startedAt != ZERO_TIME && job.startedAt < cutoff {
          result := result + [job];
        }
      }
      assert keys[..|keys|] == keys;
      CollectedFacts(all, keys, stuck);
      assert stuck * Elems(keys) == stuck;
    }

    method ClaimJob(id: Id, workerId: string, now: Time) returns (claimed: bool, status: Status)
      requires Valid()
      modifies this
      ensures Valid() && (Abs(), claimed, status) == JobStore.ClaimJob(old(Abs()), id, workerId, now)
      ensures claimed <==> id in old(Abs()).jobs && (old(Abs()).jobs[id].state == Pending || old(Abs()).jobs[id].state == Scheduled)
      ensures status == if id in old(Abs()).jobs then Done else NotFound
      ensures !claimed ==> Abs() == old(Abs())
      ensures claimed ==>
                var was := old(Abs()).jobs[id];
                var held := was.(state := Running, workerId := workerId, startedAt := now, updatedAt := now, attempt := was.attempt + 1);
                Abs() == old(Abs()).(jobs := old(Abs()).jobs[id := held])
    {
      if id !in jobs {
        return false, NotFound;
      }
      var job := codec.decodeJob(jobs[id]).value;
      if job.state != Scheduled && job.state != Pending {
        return false, Done;
      }
      job := job.(state := Running, workerId := workerId, startedAt := now, updatedAt := now, attempt := job.attempt + 1);
      jobs := jobs[id := codec.encodeJob(job)];
      claimed, status := true, Done;
      assert Abs().jobs == old(Abs()).jobs[id := job];
    }

    method SaveResult(r: JobResult)
      requires Valid()
      modifies this
      ensures Valid() && Abs() == JobStore.SaveResult(old(Abs()), r)
      ensures Abs() == old(Abs()).(results := Abs().results)
      ensures JobStore.GetResult(Abs(), r.jobId) == Some(r) && r.jobId in Abs().results && Abs().results[r.jobId] == r
      ensures forall id :: id != r.jobId ==> JobStore.GetResult(Abs(), id) == JobStore.GetResult(old(Abs()), id)
    {
      results := results[r.jobId := codec.encodeResult(r)];
      assert Abs().results == old(Abs()).results[r.jobId := r];
    }

    method GetResult(id: Id) returns (r: Option<JobResult>)
      requires Valid()
      ensures r == JobStore.GetResult(Abs(), id)
      ensures r == if id in Abs().results then Some(Abs().results[id]) else None
    {
      if id !in results {
        return None;
      }
      r := codec.decodeResult(results[id]);
    }

    method SaveCheckpoint(id: Id, data: Bytes)
      requires Valid()
      modifies this
      ensures Valid() && Abs() == JobStore.SaveCheckpoint(old(Abs()), id, data)
      ensures Abs() == old(Abs()).(checkpoints := Abs().checkpoints)
      ensures JobStore.GetCheckpoint(Abs(), id) == data && id in Abs().checkpoints && Abs().checkpoints[id] == data
      ensures forall other :: other != id ==> JobStore.GetCheckpoint(Abs(), other) == JobStore.GetCheckpoint(old(Abs()), other)
    {
      checkpoints := checkpoints[id := data];
    }

    method GetCheckpoint(id: Id) returns (data: Bytes)
      requires Valid()
      ensures data == JobStore.GetCheckpoint(Abs(), id)
      ensures data == if id in Abs().checkpoints then Abs().checkpoints[id] else []
    {
      data := if id in checkpoints then checkpoints[id] else [];
    }

    method Stats() returns (stats: QueueStats)
      requires Valid()
      ensures Counts(Abs().jobs, stats)
    {
      stats := QueueStats(0, 0, 0, 0, 0, 0, 0, 0, 0);
      ghost var all := Abs().jobs;
      var keys := CursorKeys(jobs);
      CountNone(all, keys);
      for i := 0 to |keys|
        invariant Counted(all, keys, i, stats)
      {
        assert keys[i] in Elems(keys);
        CountNext(all, keys, i, stats);
        stats := Bump(stats.(totalJobs := stats.totalJobs + 1), codec.decodeJob(jobs[keys[i]]).value.state);
      }
      CountAll(all, keys, stats);
    }

    // Cleanup's first loop: collects the expired keys and frees their idempotency keys.
    method CollectExpired(cutoff: Time) returns (toDelete: seq<Id>)
      requires Valid()
      modifies this`idempotency
      ensures Valid() && NoRepeats(toDelete) && Elems(toDelete) == ExpiredIds(Abs().jobs, cutoff)
      ensures idempotency == old(idempotency) - KeysOf(Abs().jobs, Elems(toDelete))
    {
      ghost var all := Abs().jobs;
      ghost var expired := ExpiredIds(all, cutoff);
      toDelete := [];
      var keys := CursorKeys(jobs);
      assert KeysOf(all, {}) == {};
      for i := 0 to |keys|
        invariant Elems(toDelete) == expired * Elems(keys[..i]) && NoRepeats(toDelete)
        invariant idempotency == old(idempotency) - KeysOf(all, Elems(toDelete))
      {
        assert keys[i] in Elems(keys);
        Collect(expired, keys, i, toDelete);
        var job := codec.decodeJob(jobs[keys[i]]).value;
        if (job.state == Completed || job.state == Failed || job.state == Cancelled)
          && job.completedAt != ZERO_TIME && job.completedAt < cutoff
        {
          FreeOneMore(old(idempotency), all, Elems(toDelete), keys[i]);
          toDelete := toDelete + [keys[i]];
          if job.idempotencyKey != "" {
            idempotency := idempotency - {job.idempotencyKey};
          }
        }
      }
      assert keys[..|keys|] == keys && expired * Elems(keys) == expired;
    }

    // Cleanup's second loop.
    method DeleteAll(ids: seq<Id>) returns (removed: nat)
      requires Valid() && NoRepeats(ids)
      modifies this`jobs, this`results, this`checkpoints
      ensures removed == |ids|
      ensures jobs == old(jobs) - Elems(ids)
      ensures results == old(results) - Elems(ids)
      ensures checkpoints == old(checkpoints) - Elems(ids)
    {
      removed := 0;
      for i := 0 to |ids|
        invariant removed == i
        invariant jobs == old(jobs) - Elems(ids[..i])
        invariant results == old(results) - Elems(ids[..i])
        invariant checkpoints == old(checkpoints) - Elems(ids[..i])
      {
        jobs := jobs - {ids[i]};
        results := results - {ids[i]};
        checkpoints := checkpoints - {ids[i]};
        removed := removed + 1;
        ElemsTake(ids, i);
      }
      assert ids[..|ids|] == ids;
    }

    method Cleanup(now: Time, retention: Duration) returns (removed: nat)
      requires Valid()
      modifies this
      ensures Valid() && (Abs(), removed) == JobStore.Cleanup(old(Abs()), now - retention)
    {
      var toDelete := CollectExpired(now - retention);
      removed := DeleteAll(toDelete);
      ElemsCount(toDelete);
      DecodeWithout(codec, old(jobs), old(results), Elems(toDelete));
    }
  }

  // One more key looked at, and collected if it is among `ids`.
  lemma Collect(ids: set<Id>, keys: seq<Id>, i: nat, sofar: seq<Id>)
    requires i < |keys| && NoRepeats(keys) && NoRepeats(sofar) && Elems(sofar) == ids * Elems(keys[..i])
    ensures keys[i] in ids ==> Elems(sofar + [keys[i]]) == Elems(sofar) + {keys[i]} == ids * Elems(keys[..i + 1])
    ensures keys[i] in ids ==> NoRepeats(sofar + [keys[i]])
    ensures keys[i] !in ids ==> Elems(sofar) == ids * Elems(keys[..i + 1])
  {
    ElemsTake(keys, i);
    ElemsAppend(sofar, keys[i]);
  }

  lemma PrefixElems(keys: seq<Id>, n: nat)
    requires n <= |keys|
    ensures forall k :: 0 <= k < n ==> keys[k] in Elems(keys[..n])
  {
    assert forall k :: 0 <= k < n ==> keys[..n][k] == keys[k];
  }

  // A loop that stops at the limit, or at the end, has the first due jobs.
  lemma PrefixIsFirstDue(jobs: map<Id, Job>, keys: seq<Id>, i: nat, now: Time, limit: int, js: seq<Job>)
    requires i <= |keys| && Ascending(keys) && Elems(keys) == jobs.Keys
    requires forall k :: k in keys ==> k in jobs && jobs[k].id == k
    requires js == Collected(jobs, keys[..i], DueIds(jobs, now))
    requires |js| <= if limit < 0 then 0 else limit
    requires i == |keys| || |js| >= limit
    ensures FirstDue(jobs, now, limit, js)
  {
    var due := DueIds(jobs, now);
    CollectedFacts(jobs, keys[..i], due);
    assert i == |keys| ==> IdsOf(js) == due by {
      assert i == |keys| ==> keys[..i] == keys;
    }
    assert |js| == Min(if limit < 0 then 0 else limit, |due|) by {
      DistinctCount(js);
      SubsetCount(IdsOf(js), due);
    }
    forall id, j | id in due && id !in IdsOf(js) && j in js ensures j.id < id {
      assert j.id in IdsOf(js);
      LeftOutIsLater(keys, i, id, j.id);
    }
  }

  lemma LeftOutIsLater(keys: seq<Id>, n: nat, id: Id, taken: Id)
    requires Ascending(keys) && n <= |keys|
    requires id in Elems(keys) && id !in Elems(keys[..n]) && taken in Elems(keys[..n])
    ensures taken < id
  {
    PrefixElems(keys, n);
    var x :| 0 <= x < |keys| && keys[x] == id;
    var y :| 0 <= y < n && keys[..n][y] == taken;
    assert keys[y] == taken;
  }
}
