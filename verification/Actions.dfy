// The scheduler's and the recovery manager's actions on the store, each run without interruption
// (scheduler/scheduler.go, recovery/manager.go).
module Actions {
  import opened Core
  import opened JobStore
  import Lifecycle

  datatype ActionStatus = Ok | Missing | NotCancellable

  // ----- Single jobs -----

  function Complete(s: Store, id: Id, r: JobResult, now: Time): (Store, ActionStatus) {
    if id !in s.jobs then (s, Missing)
    else (SaveResult(Update(s, Lifecycle.Complete(s.jobs[id], now), now).0, r), Ok)
  }

  function Fail(s: Store, id: Id, r: JobResult, delay: Duration, now: Time): (Store, ActionStatus) {
    if id !in s.jobs then (s, Missing)
    else (Update(SaveResult(s, r), Lifecycle.Fail(s.jobs[id], r, delay, now), now).0, Ok)
  }

  function Cancel(s: Store, id: Id, reason: string, force: bool, now: Time): (Store, ActionStatus) {
    if id !in s.jobs then (s, Missing)
    else
      match Lifecycle.CancelVerdict(s.jobs[id], force)
      case Refuse => (s, NotCancellable)
      case Ignore => (s, Ok)
      case Proceed => (Update(s, Lifecycle.Cancel(s.jobs[id], reason, now), now).0, Ok)
  }

  function Retry(s: Store, id: Id, resetAttempts: bool, now: Time): (Store, ActionStatus) {
    if id !in s.jobs then (s, Missing)
    else if !Lifecycle.Retriable(s.jobs[id]) then (s, NotCancellable)
    else (Update(s, Lifecycle.Retry(s.jobs[id], resetAttempts, now), now).0, Ok)
  }

  // scheduleJobs and processDelayedJobs on one job.
  function Schedule(s: Store, id: Id, now: Time): Store {
    if id in s.jobs && s.jobs[id].state == Pending then UpdateState(s, id, Scheduled, now).0 else s
  }

  function Release(s: Store, id: Id, now: Time): Store {
    if id in DueIds(s.jobs, now) then UpdateState(s, id, Scheduled, now).0 else s
  }

  function Recover(s: Store, job: Job, now: Time): (Store, Status) {
    Update(s, Lifecycle.Recover(job, now), now)
  }

  // What an outcome makes of the stored jobs.
  lemma OutcomeStates(s: Store, id: Id, r: JobResult, delay: Duration, now: Time)
    requires KeyedById(s) && id in s.jobs
    ensures var c := Complete(s, id, r, now).0;
            c.jobs == s.jobs[id := c.jobs[id]] && c.jobs[id].id == id && c.jobs[id].state == Completed
    ensures var f := Fail(s, id, r, delay, now).0;
            && f.jobs == s.jobs[id := f.jobs[id]] && f.jobs[id].id == id
            && (f.jobs[id].state == DeadLetter <==> s.jobs[id].attempt >= s.jobs[id].maxAttempts)
            && (f.jobs[id].state == Retrying <==>
                  s.jobs[id].attempt < s.jobs[id].maxAttempts && Lifecycle.EffectiveCategory(r) == Temporary)
            && (f.jobs[id].state == DeadLetter || f.jobs[id].state == Retrying || f.jobs[id].state == Failed)
  {
  }

  // ----- Batches -----

  // scheduleJobs over its batch, with `room` free slots in the channel: what is stored and pushed.
  function ScheduleBatch(s: Store, batch: seq<Job>, room: nat, now: Time): (Store, seq<Job>)
    decreases |batch|
  {
    if batch == [] then (s, [])
    else
      var head := batch[0];
      var marked := if head.state == Pending then UpdateState(s, head.id, Scheduled, now).0 else s;
      if room == 0 then (marked, [])
      else
        var (end, pushed) := ScheduleBatch(marked, batch[1..], room - 1, now);
        (end, [Entry(head)] + pushed)
  }

  function Entry(j: Job): Job {
    if j.state == Pending then j.(state := Scheduled) else j
  }

  function ReleaseBatch(s: Store, batch: seq<Job>, now: Time): Store
    decreases |batch|
  {
    if batch == [] then s
    else ReleaseBatch(UpdateState(s, batch[0].id, Scheduled, now).0, batch[1..], now)
  }

  // The jobs after processDelayedJobs has set those in `ids` to Scheduled.
  function ReleaseAll(jobs: map<Id, Job>, ids: set<Id>, now: Time): map<Id, Job> {
    map id | id in jobs :: if id in ids then jobs[id].(state := Scheduled, updatedAt := now) else jobs[id]
  }

  // RecoverStuckJobs over its list: what is stored, and the number it reports.
  function RecoverBatch(s: Store, batch: seq<Job>, now: Time): (Store, nat)
    decreases |batch|
  {
    if batch == [] then (s, 0)
    else
      var (mid, status) := Recover(s, batch[0], now);
      var (end, n) := RecoverBatch(mid, batch[1..], now);
      (end, n + if status == Done then 1 else 0)
  }

  // ----- One schedule cycle -----

  lemma TailSnapshot(jobs: map<Id, Job>, jobs': map<Id, Job>, batch: seq<Job>)
    requires Snapshot(jobs, batch) && batch != []
    requires forall id :: id in jobs && id != batch[0].id ==> id in jobs' && jobs'[id] == jobs[id]
    ensures Snapshot(jobs', batch[1..])
  {
    forall j | j in batch[1..] ensures j.id in jobs' && jobs'[j.id] == j {
      assert j in batch;
    }
  }

  // The stored job after its batch entry has been marked.
  function MarkedJob(j: Job, now: Time): Job {
    if j.state == Pending then j.(state := Scheduled, updatedAt := now) else j
  }

  function MarkAll(jobs: map<Id, Job>, ids: set<Id>, now: Time): map<Id, Job> {
    map id | id in jobs :: if id in ids then MarkedJob(jobs[id], now) else jobs[id]
  }

  lemma MarkAllInTwo(jobs: map<Id, Job>, id: Id, ids: set<Id>, now: Time)
    requires id !in ids
    ensures MarkAll(MarkAll(jobs, {id}, now), ids, now) == MarkAll(jobs, {id} + ids, now)
  {
  }

  lemma {:induction false} SchedulePushes(s: Store, batch: seq<Job>, room: nat, now: Time)
    ensures var pushed := ScheduleBatch(s, batch, room, now).1;
            && |pushed| == Min(room, |batch|)
            && (forall i :: 0 <= i < |pushed| ==> pushed[i] == Entry(batch[i]))
    decreases |batch|
  {
    if batch != [] && room > 0 {
      var head := batch[0];
      var marked := if head.state == Pending then UpdateState(s, head.id, Scheduled, now).0 else s;
      SchedulePushes(marked, batch[1..], room - 1, now);
    }
  }

  lemma MarkHead(s: Store, head: Job, now: Time)
    requires head.id in s.jobs && s.jobs[head.id] == head
    ensures (if head.state == Pending then UpdateState(s, head.id, Scheduled, now).0 else s)
            == s.(jobs := MarkAll(s.jobs, {head.id}, now))
  {
  }

  // The ids that the head and the rest of a batch reach.
  lemma Reached(batch: seq<Job>, room: nat)
    requires Distinct(batch) && batch != [] && room > 0
    ensures var later := batch[1..][..Min(room, |batch| - 1)];
            && IdsOf(batch[..Min(room + 1, |batch|)]) == {batch[0].id} + IdsOf(later)
            && batch[0].id !in IdsOf(later)
  {
    assert batch[..Min(room + 1, |batch|)] == [batch[0]] + batch[1..][..Min(room, |batch| - 1)];
  }

  lemma ScheduleHead(s: Store, batch: seq<Job>, room: nat, now: Time)
    requires Distinct(batch) && batch != [] && room > 0
    requires batch[0].id in s.jobs && s.jobs[batch[0].id] == batch[0]
    requires var marked := s.(jobs := MarkAll(s.jobs, {batch[0].id}, now));
             ScheduleBatch(marked, batch[1..], room - 1, now).0
             == marked.(jobs := MarkAll(marked.jobs, IdsOf(batch[1..][..Min(room, |batch| - 1)]), now))
    ensures ScheduleBatch(s, batch, room, now).0
            == s.(jobs := MarkAll(s.jobs, IdsOf(batch[..Min(room + 1, |batch|)]), now))
  {
    MarkHead(s, batch[0], now);
    Reached(batch, room);
    MarkAllInTwo(s.jobs, batch[0].id, IdsOf(batch[1..][..Min(room, |batch| - 1)]), now);
  }

  // A cycle marks the jobs it pushes and at most one more, and changes nothing else.
  lemma {:induction false} ScheduleStores(s: Store, batch: seq<Job>, room: nat, now: Time)
    requires Snapshot(s.jobs, batch)
    ensures ScheduleBatch(s, batch, room, now).0
            == s.(jobs := MarkAll(s.jobs, IdsOf(batch[..Min(room + 1, |batch|)]), now))
    decreases |batch|
  {
    if batch == [] {
      assert MarkAll(s.jobs, {}, now) == s.jobs;
    } else {
      var head := batch[0];
      assert head in batch;
      if room > 0 {
        var marked := s.(jobs := MarkAll(s.jobs, {head.id}, now));
        TailSnapshot(s.jobs, marked.jobs, batch);
        ScheduleStores(marked, batch[1..], room - 1, now);
        ScheduleHead(s, batch, room, now);
      } else {
        MarkHead(s, head, now);
        assert batch[..1] == [head] && IdsOf([head]) == {head.id};
      }
    }
  }

  lemma ReleaseHead(s: Store, id: Id, now: Time)
    ensures UpdateState(s, id, Scheduled, now).0 == s.(jobs := ReleaseAll(s.jobs, {id}, now))
  {
    if id !in s.jobs {
      assert ReleaseAll(s.jobs, {id}, now) == s.jobs;
    } else {
      assert ReleaseAll(s.jobs, {id}, now) == s.jobs[id := s.jobs[id].(state := Scheduled, updatedAt := now)];
    }
  }

  // The delayed loop sets exactly the jobs of its batch to Scheduled, and changes nothing else.
  lemma {:induction false} ReleaseStores(s: Store, batch: seq<Job>, now: Time)
    ensures ReleaseBatch(s, batch, now) == s.(jobs := ReleaseAll(s.jobs, IdsOf(batch), now))
    decreases |batch|
  {
    if batch == [] {
      assert ReleaseAll(s.jobs, {}, now) == s.jobs;
    } else {
      ReleaseHead(s, batch[0].id, now);
      ReleaseStores(s.(jobs := ReleaseAll(s.jobs, {batch[0].id}, now)), batch[1..], now);
      HeadApart(batch);
      ReleaseAllInTwo(s.jobs, batch[0].id, IdsOf(batch[1..]), now);
    }
  }

  lemma ReleaseAllInTwo(jobs: map<Id, Job>, id: Id, ids: set<Id>, now: Time)
    ensures ReleaseAll(ReleaseAll(jobs, {id}, now), ids, now) == ReleaseAll(jobs, {id} + ids, now)
  {
  }

  // Even a cycle that stops early on a full channel leaves the same jobs claimable.
  lemma ScheduleKeepsClaimable(s: Store, batch: seq<Job>, room: nat, now: Time)
    requires Snapshot(s.jobs, batch)
    ensures ClaimableIds(ScheduleBatch(s, batch, room, now).0.jobs) == ClaimableIds(s.jobs)
  {
    ScheduleStores(s, batch, room, now);
  }

  // Entries rank as the records they were made from.
  lemma EntriesOfPrefix(batch: seq<Job>, pushed: seq<Job>)
    requires |pushed| <= |batch| && forall i :: 0 <= i < |pushed| ==> pushed[i] == Entry(batch[i])
    ensures IdsOf(pushed) == IdsOf(batch[..|pushed|])
    ensures Distinct(batch) ==> Distinct(pushed)
    ensures Sorted(PriorityAsc, batch) ==> Sorted(PriorityAsc, pushed)
  {
    forall id | id in IdsOf(pushed) ensures id in IdsOf(batch[..|pushed|]) {
      var i :| 0 <= i < |pushed| && pushed[i].id == id;
      assert batch[..|pushed|][i].id == id;
    }
    forall id | id in IdsOf(batch[..|pushed|]) ensures id in IdsOf(pushed) {
      var i :| 0 <= i < |pushed| && batch[..|pushed|][i].id == id;
      assert pushed[i].id == id;
    }
  }

  // A claimable job that is not among the pushed ones does not strictly precede any of them.
  lemma LeftOutDoesNotPrecede(jobs: map<Id, Job>, batch: seq<Job>, n: nat, id: Id, i: nat)
    requires TopOf(jobs, ClaimableIds(jobs), |batch|, PriorityAsc, batch)
    requires id in ClaimableIds(jobs) && i < n <= |batch| && id !in IdsOf(batch[..n])
    ensures !Less(PriorityAsc, jobs[id], batch[i])
  {
    PrefixIds(batch, n);
    if id in IdsOf(batch) {
      var k :| 0 <= k < |batch| && batch[k].id == id;
      assert batch[k] in batch;
    } else {
      assert batch[i] in batch;
    }
  }

  lemma LeftOutComesLater(jobs: map<Id, Job>, batch: seq<Job>, pushed: seq<Job>)
    requires TopOf(jobs, ClaimableIds(jobs), |batch|, PriorityAsc, batch)
    requires |pushed| <= |batch| && forall i :: 0 <= i < |pushed| ==> pushed[i] == Entry(batch[i])
    ensures forall id, e :: id in ClaimableIds(jobs) && id !in IdsOf(pushed) && e in pushed ==>
              !Less(PriorityAsc, jobs[id], e)
  {
    EntriesOfPrefix(batch, pushed);
    forall id, e | id in ClaimableIds(jobs) && id !in IdsOf(pushed) && e in pushed
      ensures !Less(PriorityAsc, jobs[id], e)
    {
      var i :| 0 <= i < |pushed| && pushed[i] == e;
      LeftOutDoesNotPrecede(jobs, batch, |pushed|, id, i);
    }
  }

  // The entries are the top of the queue: no claimable job left out strictly precedes one of them.
  ghost predicate TopOfQueue(jobs: map<Id, Job>, pushed: seq<Job>) {
    && Distinct(pushed) && Sorted(PriorityAsc, pushed) && IdsOf(pushed) <= ClaimableIds(jobs)
    && forall id, e :: id in ClaimableIds(jobs) && id !in IdsOf(pushed) && e in pushed ==>
         !Less(PriorityAsc, jobs[id], e)
  }

  lemma CyclePushes(s: Store, limit: int, batch: seq<Job>, room: nat, now: Time)
    requires Listing(s, PendingFilter(limit), PriorityAsc, batch)
    ensures var pushed := ScheduleBatch(s, batch, room, now).1;
            && TopOfQueue(s.jobs, pushed)
            && |pushed| == Min(room, Min(EffectiveLimit(limit), |ClaimableIds(s.jobs)|))
  {
    var pushed := ScheduleBatch(s, batch, room, now).1;
    var pool := ClaimableIds(s.jobs);
    ClaimableIsPendingFilter(s.jobs, limit);
    SchedulePushes(s, batch, room, now);
    EntriesOfPrefix(batch, pushed);
    assert IdsOf(batch[..|pushed|]) <= IdsOf(batch);
    LeftOutComesLater(s.jobs, batch, pushed);
  }

  lemma TopInFields(jobs: map<Id, Job>, pushed: seq<Job>)
    requires TopOfQueue(jobs, pushed)
    ensures QueueOrder(pushed) && NoneAhead(jobs, pushed)
  {
    assert forall id :: id in jobs && (jobs[id].state == Pending || jobs[id].state == Scheduled) ==> id in ClaimableIds(jobs);
  }

  // What one cycle pushes is a prefix of the queue in (priority, creation) order, whatever the room.
  lemma CyclePushesTheTop(s: Store, limit: int, batch: seq<Job>, room: nat, now: Time)
    requires Listing(s, PendingFilter(limit), PriorityAsc, batch)
    ensures var pushed := ScheduleBatch(s, batch, room, now).1;
            && TopOfQueue(s.jobs, pushed) && QueueOrder(pushed) && NoneAhead(s.jobs, pushed)
            && |pushed| == Min(room, Min(EffectiveLimit(limit), |ClaimableIds(s.jobs)|))
  {
    CyclePushes(s, limit, batch, room, now);
    TopInFields(s.jobs, ScheduleBatch(s, batch, room, now).1);
  }

  // ----- The same in the fields of the records -----

  // Nothing is written but marks of Pending jobs.
  ghost predicate OnlyMarks(s: Store, end: Store, now: Time) {
    && end == s.(jobs := end.jobs) && end.jobs.Keys == s.jobs.Keys
    && forall id :: id in s.jobs && end.jobs[id] != s.jobs[id] ==>
         s.jobs[id].state == Pending && end.jobs[id] == s.jobs[id].(state := Scheduled, updatedAt := now)
  }

  // An entry is a copy of the stored record, Scheduled as the record then is.
  ghost predicate EntryOf(s: Store, end: Store, e: Job) {
    e.id in s.jobs && e.id in end.jobs && e == s.jobs[e.id].(state := Scheduled) && end.jobs[e.id].state == Scheduled
  }

  // Of the jobs that are not pushed at most one is marked.
  ghost predicate OneMoreAtMost(s: Store, end: Store, pushed: seq<Job>)
    requires end.jobs.Keys == s.jobs.Keys
  {
    forall a, b :: a in s.jobs && b in s.jobs && a !in IdsOf(pushed) && b !in IdsOf(pushed) ==>
      end.jobs[a] == s.jobs[a] || end.jobs[b] == s.jobs[b] || a == b
  }

  // Together with CyclePushesTheTop: all that a cycle does to the store and the channel.
  lemma CycleInFields(s: Store, batch: seq<Job>, room: nat, now: Time)
    requires Snapshot(s.jobs, batch) && IdsOf(batch) <= ClaimableIds(s.jobs)
    ensures var (end, pushed) := ScheduleBatch(s, batch, room, now);
            && OnlyMarks(s, end, now) && (forall e :: e in pushed ==> EntryOf(s, end, e))
            && OneMoreAtMost(s, end, pushed)
  {
    var (end, pushed) := ScheduleBatch(s, batch, room, now);
    ScheduleStores(s, batch, room, now);
    SchedulePushes(s, batch, room, now);
    forall e | e in pushed ensures EntryOf(s, end, e) {
      var i :| 0 <= i < |pushed| && pushed[i] == e;
      PushedEntry(s, batch, Min(room + 1, |batch|), i, now);
    }
    OneMoreMarked(s, batch, |pushed|, Min(room + 1, |batch|), pushed, end, now);
  }

  lemma PushedEntry(s: Store, batch: seq<Job>, n: nat, i: nat, now: Time)
    requires Snapshot(s.jobs, batch) && IdsOf(batch) <= ClaimableIds(s.jobs) && i < n <= |batch|
    ensures EntryOf(s, s.(jobs := MarkAll(s.jobs, IdsOf(batch[..n]), now)), Entry(batch[i]))
  {
    assert batch[i] in batch && batch[i].id in IdsOf(batch);
    PrefixIds(batch, n);
  }

  lemma OneMoreMarked(s: Store, batch: seq<Job>, k: nat, n: nat, pushed: seq<Job>, end: Store, now: Time)
    requires k <= n <= k + 1 && n <= |batch| && |pushed| == k
    requires forall i :: 0 <= i < k ==> pushed[i] == Entry(batch[i])
    requires end == s.(jobs := MarkAll(s.jobs, IdsOf(batch[..n]), now))
    ensures OneMoreAtMost(s, end, pushed)
  {
    EntriesOfPrefix(batch, pushed);
    forall a | a in s.jobs && a !in IdsOf(pushed) && end.jobs[a] != s.jobs[a]
      ensures n == k + 1 && a == batch[k].id
    {
      LastOfPrefix(batch, k, n, a);
    }
  }

  lemma LastOfPrefix(batch: seq<Job>, k: nat, n: nat, id: Id)
    requires k <= n <= k + 1 && n <= |batch|
    requires id in IdsOf(batch[..n]) && id !in IdsOf(batch[..k])
    ensures n == k + 1 && id == batch[k].id
  {
    PrefixIds(batch, k);
    var i :| 0 <= i < n && batch[..n][i].id == id;
  }

  // The delayed loop in fields.
  lemma ReleaseInFields(s: Store, batch: seq<Job>, now: Time)
    ensures var end := ReleaseBatch(s, batch, now);
            && end == s.(jobs := end.jobs) && end.jobs.Keys == s.jobs.Keys
            && forall id :: id in s.jobs ==>
                 end.jobs[id] == if id in IdsOf(batch) then s.jobs[id].(state := Scheduled, updatedAt := now) else s.jobs[id]
  {
    ReleaseStores(s, batch, now);
  }

  // ----- One job at a time -----

  function ScheduleEach(s: Store, batch: seq<Job>, now: Time): Store
    decreases |batch|
  {
    if batch == [] then s else ScheduleEach(Schedule(s, batch[0].id, now), batch[1..], now)
  }

  function ReleaseEach(s: Store, batch: seq<Job>, now: Time): Store
    decreases |batch|
  {
    if batch == [] then s else ReleaseEach(Release(s, batch[0].id, now), batch[1..], now)
  }

  lemma ScheduleMarks(s: Store, id: Id, now: Time)
    ensures Schedule(s, id, now) == s.(jobs := MarkAll(s.jobs, {id}, now))
  {
    assert Schedule(s, id, now).jobs == MarkAll(s.jobs, {id}, now);
  }

  lemma {:induction false} EachMarks(s: Store, batch: seq<Job>, now: Time)
    requires Distinct(batch)
    ensures ScheduleEach(s, batch, now) == s.(jobs := MarkAll(s.jobs, IdsOf(batch), now))
    decreases |batch|
  {
    if batch == [] {
      assert MarkAll(s.jobs, {}, now) == s.jobs;
    } else {
      ScheduleMarks(s, batch[0].id, now);
      HeadApart(batch);
      EachMarks(Schedule(s, batch[0].id, now), batch[1..], now);
      MarkAllInTwo(s.jobs, batch[0].id, IdsOf(batch[1..]), now);
    }
  }

  lemma {:induction false} EachReleases(s: Store, batch: seq<Job>, now: Time)
    requires Distinct(batch) && IdsOf(batch) <= DueIds(s.jobs, now)
    ensures ReleaseEach(s, batch, now) == s.(jobs := ReleaseAll(s.jobs, IdsOf(batch), now))
    decreases |batch|
  {
    if batch == [] {
      assert ReleaseAll(s.jobs, {}, now) == s.jobs;
    } else {
      HeadApart(batch);
      ReleaseHead(s, batch[0].id, now);
      var mid := s.(jobs := ReleaseAll(s.jobs, {batch[0].id}, now));
      assert IdsOf(batch[1..]) <= DueIds(mid.jobs, now);
      EachReleases(mid, batch[1..], now);
      ReleaseAllInTwo(s.jobs, batch[0].id, IdsOf(batch[1..]), now);
    }
  }

  // A schedule cycle stores what the schedule actions on the jobs it reaches store one by one, and a pass of the
  // delayed loop what the releases of its jobs do.
  lemma CyclesAreSingleActions(s: Store, batch: seq<Job>, room: nat, now: Time)
    ensures Snapshot(s.jobs, batch) ==>
              ScheduleBatch(s, batch, room, now).0 == ScheduleEach(s, batch[..Min(room + 1, |batch|)], now)
    ensures Distinct(batch) && IdsOf(batch) <= DueIds(s.jobs, now) ==>
              ReleaseBatch(s, batch, now) == ReleaseEach(s, batch, now)
  {
    if Snapshot(s.jobs, batch) {
      ScheduleStores(s, batch, room, now);
      EachMarks(s, batch[..Min(room + 1, |batch|)], now);
    }
    if Distinct(batch) && IdsOf(batch) <= DueIds(s.jobs, now) {
      ReleaseStores(s, batch, now);
      EachReleases(s, batch, now);
    }
  }

  // A whole cycle: it marks and pushes the top of the queue, and leaves the same jobs claimable.
  ghost predicate CycleEffect(s: Store, batch: seq<Job>, room: nat, now: Time, t: Store, pushed: seq<Job>) {
    && (t, pushed) == ScheduleBatch(s, batch, room, now)
    && InQueueOrder(s.jobs, pushed)
    && ClaimableIds(t.jobs) == ClaimableIds(s.jobs)
  }

  // Distinct jobs, by priority, lowest number first, then by creation, and none left out outranks one pushed.
  ghost predicate InQueueOrder(jobs: map<Id, Job>, pushed: seq<Job>) {
    Distinct(pushed) && IdsOf(pushed) <= ClaimableIds(jobs) && QueueOrder(pushed) && NoneAhead(jobs, pushed)
  }

  lemma CycleHasEffect(s: Store, limit: int, batch: seq<Job>, room: nat, now: Time, t: Store, pushed: seq<Job>)
    requires Listing(s, PendingFilter(limit), PriorityAsc, batch)
    requires (t, pushed) == ScheduleBatch(s, batch, room, now)
    ensures CycleEffect(s, batch, room, now, t, pushed)
  {
    CyclePushesTheTop(s, limit, batch, room, now);
    ScheduleKeepsClaimable(s, batch, room, now);
  }
}
