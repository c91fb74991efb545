// The job lifecycle protocol, one store call per step. The schedule loop, the delayed loop, the
// recovery loop, the fetcher, any number of workers and any number of API calls share one store and
// two bounded channels; between its store calls each of them holds the records it has read.
module Protocol {
  import opened Core
  import opened JobStore
  import Lifecycle

  type Tid = nat

  datatype Config = Config(
    batchSize: Size,      // GetPending limit, GetDelayed limit, capacity of the scheduler's channel
    poolCapacity: Size,   // capacity of the pool's channel
    visibility: Duration,
    workerId: string)

  // A scheduler call that reads a record, edits its copy and writes the whole copy back.
  datatype Call =
    | Complete(result: JobResult)
    | Fail(result: JobResult)
    | Cancel(reason: string, force: bool)
    | Retry(resetAttempts: bool)

  datatype Thread =
    | Holding(entry: Job)                                // a worker before ClaimJob
    | Executing(id: Id)                                  // a worker running the handler
    | Saving(result: JobResult, snap: Job, since: Time)  // Fail, before SaveResult
    | Writing(call: Call, snap: Job, since: Time)        // before Update
    | Recording(result: JobResult)                       // Complete, before SaveResult

  datatype Sys = Sys(
    store: Store,
    now: Time,
    jobCh: seq<Job>,          // the scheduler's channel
    fetched: Option<Job>,     // the entry in the fetcher's hand
    poolCh: seq<Job>,         // the pool's channel
    sched: seq<Job>,          // what is left of scheduleJobs' batch; [] is idle
    delayed: seq<Job>,        // what is left of processDelayedJobs' batch
    recov: seq<Job>,          // what is left of RecoverStuckJobs' list
    recovSince: Time,
    threads: map<Tid, Thread>,
    created: map<Id, string>, // every job ever created, with its idempotency key
    claims: multiset<Id>,     // successful ClaimJobs
    retries: multiset<Id>,    // Updates written by Retry
    deleted: nat,
    swept: nat)               // the sum of Cleanup's return values

  const INIT := Sys(EMPTY, 1, [], None, [], [], [], [], 1, map[], map[], multiset{}, multiset{}, 0, 0)

  datatype Event =
    | Tick(to: Time)
    | Submit(job: Job)
    | SchedRead(batch: seq<Job>)
    | SchedMark
    | SchedPush
    | DelayedRead(batch: seq<Job>, asOf: Time)
    | DelayedMark
    | Fetch
    | Forward
    | Receive(tid: Tid)
    | ClaimEntry(tid: Tid)
    | Checkpoint(tid: Tid, data: seq<bv8>)
    | Finish(tid: Tid, result: JobResult)
    | Ask(tid: Tid, id: Id, call: Call)
    | Save(tid: Tid)
    | Write(tid: Tid, t: Time, delay: Duration)
    | Record(tid: Tid)
    | RecoverRead(batch: seq<Job>, asOf: Time)
    | RecoverWrite(t: Time)
    | Remove(id: Id)
    | Sweep(cutoff: Time)
    | Crash

  // Does Cancel or Retry go on to write, given the record it has read?
  predicate Accepts(call: Call, snap: Job) {
    match call
    case Cancel(_, force) => Lifecycle.CancelVerdict(snap, force) == Lifecycle.Proceed
    case Retry(_) => Lifecycle.Retriable(snap)
    case _ => false
  }

  // The record a call writes back. `t` is the clock reading it stamps, `delay` the backoff.
  function Edited(call: Call, snap: Job, t: Time, delay: Duration): Job {
    match call
    case Complete(_) => Lifecycle.Complete(snap, t)
    case Fail(r) => Lifecycle.Fail(snap, r, delay, t)
    case Cancel(reason, _) => Lifecycle.Cancel(snap, reason, t)
    case Retry(reset) => Lifecycle.Retry(snap, reset, t)
  }

  // Is the step possible? A listing may be for an earlier time than now, since the clock is read before the
  // store is.
  ghost predicate Enabled(c: Config, s: Sys, e: Event) {
    match e
    case Tick(to) => s.now <= to
    case Submit(job) => Untouched(job) && job.id !in s.created
    case SchedRead(batch) => s.sched == [] && Listing(s.store, PendingFilter(c.batchSize), AnyOrder, batch)
    case SchedMark => s.sched != [] && s.sched[0].state == Pending
    case SchedPush => s.sched != [] && s.sched[0].state != Pending
    case DelayedRead(batch, asOf) =>
      && s.delayed == [] && asOf <= s.now
      && TopOf(s.store.jobs, DueIds(s.store.jobs, asOf), c.batchSize, AnyOrder, batch)
    case DelayedMark => s.delayed != []
    case Fetch => s.jobCh != [] && s.fetched.None?
    case Forward => s.fetched.Some? && |s.poolCh| < c.poolCapacity
    case Receive(tid) => s.poolCh != [] && tid !in s.threads
    case ClaimEntry(tid) => tid in s.threads && s.threads[tid].Holding?
    case Checkpoint(tid, _) => tid in s.threads && s.threads[tid].Executing?
    case Finish(tid, result) => tid in s.threads && s.threads[tid].Executing? && result.jobId == s.threads[tid].id
    case Ask(tid, _, call) => tid !in s.threads && (call.Cancel? || call.Retry?)
    case Save(tid) => tid in s.threads && s.threads[tid].Saving?
    case Write(tid, t, _) => tid in s.threads && s.threads[tid].Writing? && s.threads[tid].since <= t <= s.now
    case Record(tid) => tid in s.threads && s.threads[tid].Recording?
    case RecoverRead(batch, asOf) =>
      && s.recov == [] && asOf <= s.now && Snapshot(s.store.jobs, batch)
      && IdsOf(batch) == StuckIds(s.store.jobs, asOf - c.visibility)
    case RecoverWrite(t) => s.recov != [] && s.recovSince <= t <= s.now
    case Remove(_) => true
    case Sweep(_) => true
    case Crash => true
  }

  // ----- The steps -----

  function Submitted(s: Sys, job: Job): Sys {
    var (st, status) := Create(s.store, job);
    if status != Done then s
    else s.(store := st, created := s.created[job.id := job.idempotencyKey])
  }

  // scheduleJobs, for the job at the head of its batch: first UpdateState, then the push.
  function Marked(s: Sys): Sys
    requires s.sched != []
  {
    s.(store := UpdateState(s.store, s.sched[0].id, Scheduled, s.now).0,
       sched := [s.sched[0].(state := Scheduled)] + s.sched[1..])
  }

  function Pushed(c: Config, s: Sys): Sys
    requires s.sched != []
  {
    if |s.jobCh| < c.batchSize then s.(jobCh := s.jobCh + [s.sched[0]], sched := s.sched[1..])
    else s.(sched := [])
  }

  function Released(s: Sys): Sys
    requires s.delayed != []
  {
    s.(store := UpdateState(s.store, s.delayed[0].id, Scheduled, s.now).0, delayed := s.delayed[1..])
  }

  function Received(s: Sys, tid: Tid): Sys
    requires s.poolCh != []
  {
    s.(threads := s.threads[tid := Holding(s.poolCh[0])], poolCh := s.poolCh[1..])
  }

  function Claimed(c: Config, s: Sys, tid: Tid, id: Id): Sys {
    var (st, claimed, _) := ClaimJob(s.store, id, c.workerId, s.now);
    if !claimed then s.(threads := s.threads - {tid})
    else s.(store := st, threads := s.threads[tid := Executing(id)], claims := s.claims + multiset{id})
  }

  // The handler has returned; Complete or Fail reads the record.
  function Finished(s: Sys, tid: Tid, result: JobResult): Sys {
    var read := Get(s.store, result.jobId);
    if read.None? then s.(threads := s.threads - {tid})
    else if result.success then s.(threads := s.threads[tid := Writing(Complete(result), read.value, s.now)])
    else s.(threads := s.threads[tid := Saving(result, read.value, s.now)])
  }

  // Cancel or Retry reads the record and decides.
  function Asked(s: Sys, tid: Tid, id: Id, call: Call): Sys {
    var read := Get(s.store, id);
    if read.None? || !Accepts(call, read.value) then s
    else s.(threads := s.threads[tid := Writing(call, read.value, s.now)])
  }

  function Saved(s: Sys, tid: Tid, th: Thread): Sys
    requires th.Saving?
  {
    s.(store := SaveResult(s.store, th.result), threads := s.threads[tid := Writing(Fail(th.result), th.snap, th.since)])
  }

  function Written(s: Sys, tid: Tid, th: Thread, t: Time, delay: Duration): Sys
    requires th.Writing?
  {
    var (st, status) := Update(s.store, Edited(th.call, th.snap, t, delay), s.now);
    s.(store := st,
       threads := if th.call.Complete? && status == Done then s.threads[tid := Recording(th.call.result)]
                  else s.threads - {tid},
       retries := if th.call.Retry? && status == Done then s.retries + multiset{th.snap.id} else s.retries)
  }

  function Recovered(s: Sys, t: Time): Sys
    requires s.recov != []
  {
    s.(store := Update(s.store, Lifecycle.Recover(s.recov[0], t), s.now).0, recov := s.recov[1..])
  }

  function Removed(s: Sys, id: Id): Sys {
    var (st, status) := Delete(s.store, id);
    if status == Done then s.(store := st, deleted := s.deleted + 1) else s
  }

  function Swept(s: Sys, cutoff: Time): Sys {
    var (st, n) := Cleanup(s.store, cutoff);
    s.(store := st, swept := s.swept + n)
  }

  // Everything but the store is lost.
  function Crashed(s: Sys): Sys {
    s.(jobCh := [], fetched := None, poolCh := [], sched := [], delayed := [], recov := [], threads := map[])
  }

  function Next(c: Config, s: Sys, e: Event): Sys
    requires Enabled(c, s, e)
  {
    match e
    case Tick(to) => s.(now := to)
    case Submit(job) => Submitted(s, job)
    case SchedRead(batch) => s.(sched := batch)
    case SchedMark => Marked(s)
    case SchedPush => Pushed(c, s)
    case DelayedRead(batch, _) => s.(delayed := batch)
    case DelayedMark => Released(s)
    case Fetch => s.(fetched := Some(s.jobCh[0]), jobCh := s.jobCh[1..])
    case Forward => s.(poolCh := s.poolCh + [s.fetched.value], fetched := None)
    case Receive(tid) => Received(s, tid)
    case ClaimEntry(tid) => Claimed(c, s, tid, s.threads[tid].entry.id)
    case Checkpoint(tid, data) => s.(store := SaveCheckpoint(s.store, s.threads[tid].id, data))
    case Finish(tid, result) => Finished(s, tid, result)
    case Ask(tid, id, call) => Asked(s, tid, id, call)
    case Save(tid) => Saved(s, tid, s.threads[tid])
    case Write(tid, t, delay) => Written(s, tid, s.threads[tid], t, delay)
    case Record(tid) =>
      s.(store := SaveResult(s.store, s.threads[tid].result), threads := s.threads - {tid})
    case RecoverRead(batch, _) => s.(recov := batch, recovSince := s.now)
    case RecoverWrite(t) => Recovered(s, t)
    case Remove(id) => Removed(s, id)
    case Sweep(cutoff) => Swept(s, cutoff)
    case Crash => Crashed(s)
  }

  // A run, and the state it ends in.
  ghost predicate Run(c: Config, s: Sys, events: seq<Event>)
    decreases |events|
  {
    events == [] || (Enabled(c, s, events[0]) && Run(c, Next(c, s, events[0]), events[1..]))
  }

  ghost function After(c: Config, s: Sys, events: seq<Event>): Sys
    requires Run(c, s, events)
    decreases |events|
  {
    if events == [] then s else After(c, Next(c, s, events[0]), events[1..])
  }
}
