// Listing jobs: the filter of one job, the sort, and what the store loops collect
// (persistence/store.go, sortJobs in persistence/bolt_store.go).
module Listing {
  import opened Core
  import opened JobStore

  // ----- matchesFilter -----

  method Contains<T(==)>(xs: seq<T>, x: T) returns (found: bool)
    ensures found <==> x in xs
  {
    found := false;
    for i := 0 to |xs|
      invariant !found && x !in xs[..i]
    {
      if xs[i] == x {
        found := true;
        break;
      }
      assert xs[..i + 1] == xs[..i] + [xs[i]];
    }
    assert !found ==> xs[..|xs|] == xs;
  }

  method TagsMatch(job: Job, tags: map<string, string>) returns (ok: bool)
    ensures ok <==> forall k :: k in tags ==> TagOf(job, k) == tags[k]
  {
    var left := tags.Keys;
    while left != {}
      invariant left <= tags.Keys
      invariant forall k :: k in tags && k !in left ==> TagOf(job, k) == tags[k]
      decreases left
    {
      var k :| k in left;
      if TagOf(job, k) != tags[k] {
        return false;
      }
      left := left - {k};
    }
    return true;
  }

  method MatchesFilter(job: Job, filter: JobFilter) returns (ok: bool)
    ensures ok <==> Matches(job, filter)
    ensures ok <==>
              && (|filter.types| > 0 ==> exists i :: 0 <= i < |filter.types| && filter.types[i] == job.jobType)
              && (|filter.states| > 0 ==> exists i :: 0 <= i < |filter.states| && filter.states[i] == job.state)
              && (|filter.priorities| > 0 ==> exists i :: 0 <= i < |filter.priorities| && filter.priorities[i] == job.priority)
              && (forall k :: k in filter.tags ==> (if k in job.tags then job.tags[k] else "") == filter.tags[k])
              && !(filter.createdAfter != 0 && job.createdAt < filter.createdAfter)
              && !(filter.createdBefore != 0 && job.createdAt > filter.createdBefore)
              && !(filter.updatedAfter != 0 && job.updatedAt < filter.updatedAfter)
              && !(filter.correlationId != "" && job.correlationId != filter.correlationId)
  {
    if |filter.types| > 0 {
      var found := Contains(filter.types, job.jobType);
      if !found { return false; }
    }
    if |filter.states| > 0 {
      var found := Contains(filter.states, job.state);
      if !found { return false; }
    }
    if |filter.priorities| > 0 {
      var found := Contains(filter.priorities, job.priority);
      if !found { return false; }
    }
    var tagged := TagsMatch(job, filter.tags);
    if !tagged { return false; }
    if filter.createdAfter != ZERO_TIME && job.createdAt < filter.createdAfter { return false; }
    if filter.createdBefore != ZERO_TIME && job.createdAt > filter.createdBefore { return false; }
    if filter.updatedAfter != ZERO_TIME && job.updatedAt < filter.updatedAfter { return false; }
    if filter.correlationId != "" && job.correlationId != filter.correlationId { return false; }
    return true;
  }

  // ----- Sorting; ties come out in no particular order -----

  method SortJobs(jobs: seq<Job>, order: ListOrder) returns (result: seq<Job>)
    ensures multiset(result) == multiset(jobs)
    ensures Sorted(order, result)
    ensures order == CreatedAsc ==> forall i, j :: 0 <= i < j < |result| ==> result[i].createdAt <= result[j].createdAt
    ensures order == CreatedDesc ==> forall i, j :: 0 <= i < j < |result| ==> result[i].createdAt >= result[j].createdAt
    ensures order == UpdatedDesc ==> forall i, j :: 0 <= i < j < |result| ==> result[i].updatedAt >= result[j].updatedAt
    ensures order == PriorityAsc ==> forall i, j :: 0 <= i < j < |result| ==>
              result[i].priority < result[j].priority ||
              (result[i].priority == result[j].priority && result[i].createdAt <= result[j].createdAt)
  {
    result := [];
    for i := 0 to |jobs|
      invariant multiset(result) == multiset(jobs[..i]) && Sorted(order, result)
    {
      assert jobs[..i + 1] == jobs[..i] + [jobs[i]];
      result := InsertJob(result, jobs[i], order);
    }
    assert jobs[..|jobs|] == jobs;
  }

  method InsertJob(jobs: seq<Job>, j: Job, order: ListOrder) returns (result: seq<Job>)
    requires Sorted(order, jobs)
    ensures multiset(result) == multiset(jobs) + multiset{j}
    ensures Sorted(order, result)
  {
    var i := |jobs|;
    while i > 0 && Less(order, j, jobs[i - 1])
      invariant 0 <= i <= |jobs|
      invariant forall k :: i <= k < |jobs| ==> Less(order, j, jobs[k])
    {
      i := i - 1;
    }
    result := jobs[..i] + [j] + jobs[i..];
    assert jobs == jobs[..i] + jobs[i..];
    InsertedSorted(order, jobs, i, j);
  }

  lemma InsertedSorted(order: ListOrder, jobs: seq<Job>, i: nat, j: Job)
    requires Sorted(order, jobs) && i <= |jobs|
    requires i > 0 ==> !Less(order, j, jobs[i - 1])
    requires forall k :: i <= k < |jobs| ==> Less(order, j, jobs[k])
    ensures Sorted(order, jobs[..i] + [j] + jobs[i..])
  {
    var result := jobs[..i] + [j] + jobs[i..];
    forall x, y | 0 <= x < y < |result| ensures !Less(order, result[y], result[x]) {
      if y == i {
        assert x < i - 1 ==> !Less(order, jobs[i - 1], jobs[x]);
      } else if x == i {
        assert result[y] == jobs[y - 1];
      } else {
        var x', y' := if x < i then x else x - 1, if y < i then y else y - 1;
        assert result[x] == jobs[x'] && result[y] == jobs[y'];
      }
    }
  }

  // ----- What a loop over keys collects -----

  // The records of `ids`, in the order of `keys`.
  function Collected(jobs: map<Id, Job>, keys: seq<Id>, ids: set<Id>): seq<Job>
    requires forall k :: k in keys ==> k in jobs
  {
    if keys == [] then []
    else
      var last := keys[|keys| - 1];
      Collected(jobs, keys[..|keys| - 1], ids) + (if last in ids then [jobs[last]] else [])
  }

  predicate Ascending(keys: seq<Id>) {
    forall i, j :: 0 <= i < j < |keys| ==> keys[i] < keys[j]
  }

  predicate NoRepeats(keys: seq<Id>) {
    forall i, j :: 0 <= i < j < |keys| ==> keys[i] != keys[j]
  }

  function Elems(keys: seq<Id>): set<Id> {
    set k | k in keys
  }

  lemma AppendedListing(jobs: map<Id, Job>, before: seq<Job>, j: Job)
    requires Snapshot(jobs, before) && j.id in jobs && jobs[j.id] == j && j.id !in IdsOf(before)
    ensures Snapshot(jobs, before + [j]) && IdsOf(before + [j]) == IdsOf(before) + {j.id}
  {
    forall i, k | 0 <= i < k < |before + [j]| ensures (before + [j])[i].id != (before + [j])[k].id {
      assert before[i] in before;
    }
  }

  lemma {:induction false} CollectedFacts(jobs: map<Id, Job>, keys: seq<Id>, ids: set<Id>)
    requires forall k :: k in keys ==> k in jobs && jobs[k].id == k
    requires NoRepeats(keys)
    ensures Snapshot(jobs, Collected(jobs, keys, ids))
    ensures IdsOf(Collected(jobs, keys, ids)) == ids * Elems(keys)
  {
    if keys != [] {
      var last, init := keys[|keys| - 1], keys[..|keys| - 1];
      CollectedFacts(jobs, init, ids);
      assert keys == init + [last];
      assert Elems(keys) == Elems(init) + {last} && last !in Elems(init);
      if last in ids {
        AppendedListing(jobs, Collected(jobs, init, ids), jobs[last]);
        assert ids * Elems(keys) == ids * Elems(init) + {last};
      } else {
        assert Collected(jobs, keys, ids) == Collected(jobs, init, ids);
        assert ids * Elems(keys) == ids * Elems(init);
      }
    }
  }

  lemma {:induction false} CollectedAscends(jobs: map<Id, Job>, keys: seq<Id>, ids: set<Id>)
    requires forall k :: k in keys ==> k in jobs && jobs[k].id == k
    requires Ascending(keys)
    ensures var r := Collected(jobs, keys, ids);
            forall i, j :: 0 <= i < j < |r| ==> r[i].id < r[j].id
  {
    if keys != [] {
      var last, init := keys[|keys| - 1], keys[..|keys| - 1];
      CollectedAscends(jobs, init, ids);
      CollectedFacts(jobs, init, ids);
      var before := Collected(jobs, init, ids);
      forall j | j in before ensures j.id < last {
        assert j.id in IdsOf(before);
      }
    }
  }

  lemma CollectOneMore(jobs: map<Id, Job>, keys: seq<Id>, i: nat, ids: set<Id>)
    requires i < |keys| && forall k :: k in keys ==> k in jobs
    ensures Collected(jobs, keys[..i + 1], ids)
            == Collected(jobs, keys[..i], ids) + (if keys[i] in ids then [jobs[keys[i]]] else [])
  {
    assert keys[..i + 1][..i] == keys[..i];
  }

  lemma ElemsAppend(keys: seq<Id>, k: Id)
    ensures Elems(keys + [k]) == Elems(keys) + {k}
    ensures NoRepeats(keys) && k !in Elems(keys) ==> NoRepeats(keys + [k])
    ensures Ascending(keys) && (forall l :: l in keys ==> l < k) ==> Ascending(keys + [k])
  {
    assert forall i :: 0 <= i < |keys| ==> keys[i] in Elems(keys);
  }

  lemma ElemsTake(keys: seq<Id>, i: nat)
    requires i < |keys| && NoRepeats(keys)
    ensures Elems(keys[..i + 1]) == Elems(keys[..i]) + {keys[i]} && keys[i] !in Elems(keys[..i])
  {
    assert keys[..i + 1] == keys[..i] + [keys[i]];
  }

  lemma {:induction false} ElemsCount(keys: seq<Id>)
    requires NoRepeats(keys)
    ensures |Elems(keys)| == |keys|
  {
    if keys != [] {
      var init, last := keys[..|keys| - 1], keys[|keys| - 1];
      ElemsCount(init);
      ElemsAppend(init, last);
      assert keys == init + [last] && last !in Elems(init);
    }
  }

  // ----- Removing -----

  // Removing one job with everything kept for it, bucket by bucket.
  function DropOne(s: Store, id: Id): Store
    requires id in s.jobs
  {
    var key := s.jobs[id].idempotencyKey;
    Store(s.jobs - {id}, s.results - {id}, s.checkpoints - {id}, if key == "" then s.idem else s.idem - {key})
  }

  lemma RemoveNone(s: Store)
    ensures Remove(s, {}) == s
  {
    assert KeysOf(s.jobs, {}) == {};
  }

  lemma RemoveNext(s: Store, ids: set<Id>, id: Id)
    requires id in s.jobs && id !in ids
    ensures DropOne(Remove(s, ids), id) == Remove(s, ids + {id})
  {
    FreeOneMore(s.idem, s.jobs, ids, id);
    assert s.jobs - ids - {id} == s.jobs - (ids + {id});
    assert s.results - ids - {id} == s.results - (ids + {id});
    assert s.checkpoints - ids - {id} == s.checkpoints - (ids + {id});
  }

  lemma RemoveOne(s: Store, id: Id)
    requires id in s.jobs
    ensures DropOne(s, id) == Remove(s, {id})
  {
    RemoveNone(s);
    RemoveNext(s, {}, id);
    assert {} + {id} == {id};
  }

  lemma FreeOneMore(idem: map<string, Id>, jobs: map<Id, Job>, ids: set<Id>, id: Id)
    requires id in jobs
    ensures var key := jobs[id].idempotencyKey;
            idem - KeysOf(jobs, ids + {id})
            == if key == "" then idem - KeysOf(jobs, ids) else idem - KeysOf(jobs, ids) - {key}
  {
    var key := jobs[id].idempotencyKey;
    assert KeysOf(jobs, ids + {id}) == KeysOf(jobs, ids) + if key == "" then {} else {key};
  }

  // ----- Permutations of listings -----

  lemma TwoOccurrences<T>(s: seq<T>, i: nat, j: nat)
    requires i < j < |s| && s[i] == s[j]
    ensures multiset(s)[s[i]] >= 2
  {
    assert s == s[..i] + [s[i]] + s[i + 1..j] + [s[j]] + s[j + 1..];
  }

  lemma OneOccurrence<T>(s: seq<T>, i: nat)
    requires i < |s| && multiset(s)[s[i]] >= 2
    ensures exists j :: 0 <= j < |s| && j != i && s[j] == s[i]
  {
    var rest := s[..i] + s[i + 1..];
    assert s == s[..i] + [s[i]] + s[i + 1..];
    assert multiset(s) == multiset(rest) + multiset{s[i]};
    assert s[i] in rest;
    var k :| 0 <= k < |rest| && rest[k] == s[i];
    var j := if k < i then k else k + 1;
    assert s[j] == s[i];
  }

  // A permutation of a listing is a listing of the same jobs.
  lemma PermutedSnapshot(jobs: map<Id, Job>, a: seq<Job>, b: seq<Job>)
    requires Snapshot(jobs, a) && multiset(a) == multiset(b)
    ensures Snapshot(jobs, b) && IdsOf(b) == IdsOf(a) && |b| == |a|
    ensures forall j :: j in a <==> j in b
  {
    forall j ensures j in a <==> j in b {
      assert j in multiset(a) <==> j in multiset(b);
    }
    forall i, k | 0 <= i < k < |b| ensures b[i].id != b[k].id {
      if b[i].id == b[k].id {
        assert b[i] in a && b[k] in a;
        TwoOccurrences(b, i, k);
        var x :| 0 <= x < |a| && a[x] == b[i];
        OneOccurrence(a, x);
        assert false;
      }
    }
    assert |multiset(a)| == |multiset(b)|;
  }

  lemma CutOffIsLater(jobs: map<Id, Job>, order: ListOrder, all: seq<Job>, n: nat, id: Id, j: Job)
    requires Snapshot(jobs, all) && Sorted(order, all) && n <= |all|
    requires id in IdsOf(all) && id !in IdsOf(all[..n]) && j in all[..n]
    ensures id in jobs && !Less(order, jobs[id], j)
  {
    PrefixIds(all, n);
    var k :| 0 <= k < |all| && all[k].id == id;
    var i :| 0 <= i < n && all[..n][i] == j;
    assert all[k] in all && all[i] == j;
  }

  // Sorting and truncating a full listing gives its top.
  lemma TruncatedIsTop(jobs: map<Id, Job>, pool: set<Id>, limit: nat, order: ListOrder, all: seq<Job>)
    requires Snapshot(jobs, all) && IdsOf(all) == pool && Sorted(order, all)
    ensures var top := if |all| > limit then all[..limit] else all;
            TopOf(jobs, pool, limit, order, top) && InOrder(order, top) && NoneBefore(jobs, pool, order, top)
  {
    DistinctCount(all);
    var top := if |all| > limit then all[..limit] else all;
    assert top == all[..|top|];
    assert IdsOf(top) <= pool by {
      assert forall j :: j in top ==> j in all;
    }
    forall id, j | id in pool && id in jobs && id !in IdsOf(top) && j in top
      ensures !Less(order, jobs[id], j)
    {
      CutOffIsLater(jobs, order, all, |top|, id, j);
    }
    ListingInFields(jobs, pool, limit, order, top);
  }

  // ----- Counting states -----

  function Bump(q: QueueStats, state: JobState): QueueStats {
    match state
    case Pending => q.(pending := q.pending + 1)
    case Scheduled => q.(scheduled := q.scheduled + 1)
    case Running => q.(running := q.running + 1)
    case Delayed => q.(delayed := q.delayed + 1)
    case Completed => q.(completed := q.completed + 1)
    case Failed => q.(failed := q.failed + 1)
    case DeadLetter => q.(deadLetter := q.deadLetter + 1)
    case Cancelled => q.(cancelled := q.cancelled + 1)
    case Retrying => q
  }

  function Only(jobs: map<Id, Job>, ids: set<Id>): map<Id, Job> {
    map id | id in jobs && id in ids :: jobs[id]
  }

  lemma StateCountOneMore(jobs: map<Id, Job>, ids: set<Id>, id: Id, state: JobState)
    requires id in jobs && id !in ids
    ensures |InState(Only(jobs, ids + {id}), state)|
            == |InState(Only(jobs, ids), state)| + if jobs[id].state == state then 1 else 0
  {
    StateOneMore(jobs, ids, id, state);
    assert id !in InState(Only(jobs, ids), state);
  }

  lemma StateOneMore(jobs: map<Id, Job>, ids: set<Id>, id: Id, state: JobState)
    requires id in jobs && id !in ids
    ensures InState(Only(jobs, ids + {id}), state)
            == InState(Only(jobs, ids), state) + if jobs[id].state == state then {id} else {}
  {
  }

  lemma CountOneMore(jobs: map<Id, Job>, ids: set<Id>, id: Id, q: QueueStats)
    requires id in jobs && id !in ids && Counts(Only(jobs, ids), q)
    ensures Counts(Only(jobs, ids + {id}), Bump(q.(totalJobs := q.totalJobs + 1), jobs[id].state))
  {
    StateCountOneMore(jobs, ids, id, Pending);
    StateCountOneMore(jobs, ids, id, Scheduled);
    StateCountOneMore(jobs, ids, id, Running);
    StateCountOneMore(jobs, ids, id, Delayed);
    StateCountOneMore(jobs, ids, id, Completed);
    StateCountOneMore(jobs, ids, id, Failed);
    StateCountOneMore(jobs, ids, id, DeadLetter);
    StateCountOneMore(jobs, ids, id, Cancelled);
    assert Only(jobs, ids + {id}) == Only(jobs, ids)[id := jobs[id]];
    GrownMap(Only(jobs, ids), id, jobs[id]);
  }

  // Stats after the first `i` keys.
  predicate Counted(jobs: map<Id, Job>, keys: seq<Id>, i: nat, q: QueueStats)
    requires i <= |keys|
  {
    Counts(Only(jobs, Elems(keys[..i])), q)
  }

  lemma CountNone(jobs: map<Id, Job>, keys: seq<Id>)
    ensures Counted(jobs, keys, 0, QueueStats(0, 0, 0, 0, 0, 0, 0, 0, 0))
  {
    assert Only(jobs, Elems(keys[..0])) == map[];
    assert forall state: JobState :: InState(map[], state) == {};
  }

  lemma CountNext(jobs: map<Id, Job>, keys: seq<Id>, i: nat, q: QueueStats)
    requires i < |keys| && NoRepeats(keys) && keys[i] in jobs
    requires Counted(jobs, keys, i, q)
    ensures Counted(jobs, keys, i + 1, Bump(q.(totalJobs := q.totalJobs + 1), jobs[keys[i]].state))
  {
    ElemsTake(keys, i);
    CountOneMore(jobs, Elems(keys[..i]), keys[i], q);
  }

  // The total does not take part in the counting of states.
  lemma BumpApart(q: QueueStats, total: nat, state: JobState)
    ensures Bump(q.(totalJobs := total), state) == Bump(q, state).(totalJobs := total)
  {
  }

  lemma CountAll(jobs: map<Id, Job>, keys: seq<Id>, q: QueueStats)
    requires Elems(keys) == jobs.Keys && Counted(jobs, keys, |keys|, q)
    ensures Counts(jobs, q)
  {
    assert keys[..|keys|] == keys;
    assert Only(jobs, jobs.Keys) == jobs;
  }
}
