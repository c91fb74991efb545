// How often a job can be claimed in a run of the protocol.
module ProtocolClaims {
  import opened Core
  import opened JobStore
  import opened Protocol
  import ClaimBudget
  import Lifecycle

  function StatesOf(jobs: map<Id, Job>): map<Id, JobState> {
    map id | id in jobs :: jobs[id].state
  }

  // The jobs of a batch that scheduleJobs still has to set to Scheduled.
  function MarkIds(batch: seq<Job>): set<Id> {
    set j | j in batch && j.state == Pending :: j.id
  }

  // The jobs of a batch that scheduleJobs may push as they are.
  function PushIds(batch: seq<Job>): set<Id> {
    set j | j in batch && j.state != Pending :: j.id
  }

  function FetchedIds(fetched: Option<Job>): set<Id> {
    if fetched.Some? then {fetched.value.id} else {}
  }

  function HeldIds(threads: map<Tid, Thread>): set<Id> {
    set tid | tid in threads && threads[tid].Holding? :: threads[tid].entry.id
  }

  function Hints(s: Sys): set<Id> {
    IdsOf(s.jobCh) + FetchedIds(s.fetched) + IdsOf(s.poolCh) + HeldIds(s.threads) + PushIds(s.sched)
  }

  // The retry this step writes, if a channel entry for its job is in hand just then.
  function HintedBy(s: Sys, e: Event): multiset<Id> {
    match e
    case Write(tid, _, _) =>
      if tid in s.threads && s.threads[tid].Writing? then HintedWrite(s, s.threads[tid].call, s.threads[tid].snap.id)
      else multiset{}
    case _ => multiset{}
  }

  function HintedWrite(s: Sys, call: Call, id: Id): multiset<Id> {
    if call.Retry? && id in s.store.jobs && id in Hints(s) then multiset{id} else multiset{}
  }

  ghost function HintedRetries(c: Config, s: Sys, events: seq<Event>): multiset<Id>
    requires Run(c, s, events)
    decreases |events|
  {
    if events == [] then multiset{}
    else HintedBy(s, events[0]) + HintedRetries(c, Next(c, s, events[0]), events[1..])
  }

  function ViewOf(s: Sys, h: multiset<Id>): ClaimBudget.View {
    ClaimBudget.View(StatesOf(s.store.jobs), MarkIds(s.sched), IdsOf(s.delayed), Hints(s),
                     s.created.Keys, s.claims, s.retries, h)
  }

  ghost predicate Inv(s: Sys, h: multiset<Id>) {
    && KeyedById(s.store)
    && Distinct(s.sched) && Distinct(s.delayed)
    && ClaimBudget.Inv(ViewOf(s, h))
  }

  // ----- What a store write and a thread's next step do to the view -----

  lemma SetStates(st: Store, id: Id, state: JobState, now: Time)
    requires KeyedById(st)
    ensures var w := UpdateState(st, id, state, now).0;
            KeyedById(w) && StatesOf(w.jobs) == ClaimBudget.Put(StatesOf(st.jobs), id, state)
  {
  }

  lemma WriteStates(st: Store, job: Job, now: Time)
    requires KeyedById(st)
    ensures var w := Update(st, job, now).0;
            KeyedById(w) && StatesOf(w.jobs) == ClaimBudget.Put(StatesOf(st.jobs), job.id, job.state)
  {
  }

  lemma HeldAfter(threads: map<Tid, Thread>, tid: Tid, th: Thread)
    ensures HeldIds(threads - {tid}) <= HeldIds(threads)
    ensures !th.Holding? ==> HeldIds(threads[tid := th]) <= HeldIds(threads)
    ensures th.Holding? ==> HeldIds(threads[tid := th]) <= HeldIds(threads) + {th.entry.id}
    ensures tid in threads && !threads[tid].Holding? ==> HeldIds(threads - {tid}) == HeldIds(threads)
    ensures tid in threads && !threads[tid].Holding? && !th.Holding? ==> HeldIds(threads[tid := th]) == HeldIds(threads)
  {
    forall id | id in HeldIds(threads) && tid in threads && !threads[tid].Holding?
      ensures id in HeldIds(threads - {tid})
      ensures !th.Holding? ==> id in HeldIds(threads[tid := th])
    {
      var t :| t in threads && threads[t].Holding? && threads[t].entry.id == id;
      assert t in threads - {tid} && t in threads[tid := th];
      assert (threads - {tid})[t] == threads[t];
      assert t != tid && threads[tid := th][t] == threads[t];
    }
  }

  // ----- Every step is a move of the accounting, so it keeps it -----

  lemma HeadTail(batch: seq<Job>)
    requires batch != []
    ensures MarkIds(batch) == MarkIds([batch[0]]) + MarkIds(batch[1..])
    ensures PushIds(batch) == PushIds([batch[0]]) + PushIds(batch[1..])
  {
    assert batch == [batch[0]] + batch[1..];
  }

  lemma Appended(batch: seq<Job>, j: Job)
    ensures IdsOf(batch + [j]) == IdsOf(batch) + {j.id}
  {
  }

  // A step that leaves the jobs alone and adds no hint.
  lemma NoNewHintsKeep(s: Sys, w: Sys, h: multiset<Id>)
    requires Inv(s, h)
    requires w.store.jobs == s.store.jobs && w.delayed == s.delayed
    requires w.created == s.created && w.claims == s.claims && w.retries == s.retries
    requires Distinct(w.sched) && MarkIds(w.sched) <= MarkIds(s.sched)
    requires Hints(w) <= Hints(s)
    ensures Inv(w, h)
  {
    ClaimBudget.DropsKeep(ViewOf(s, h), ViewOf(w, h));
  }

  // Marking the head of a batch turns its pending write into an entry to push.
  lemma MarkedBatch(head: Job, rest: seq<Job>)
    requires Distinct([head] + rest) && head.state == Pending
    ensures var marked := [head.(state := Scheduled)] + rest;
            && Distinct(marked)
            && MarkIds(marked) == MarkIds([head] + rest) - {head.id}
            && PushIds(marked) == PushIds([head] + rest) + {head.id}
  {
    var marked := head.(state := Scheduled);
    HeadApart([head] + rest);
    HeadTail([head] + rest);
    HeadApart([marked] + rest);
    HeadTail([marked] + rest);
    assert ([head] + rest)[1..] == rest && ([marked] + rest)[1..] == rest;
    assert MarkIds([head]) == {head.id} && PushIds([head]) == {};
    assert MarkIds([marked]) == {} && PushIds([marked]) == {head.id};
    assert MarkIds(rest) <= IdsOf(rest);
  }

  lemma MarkedKeeps(s: Sys, h: multiset<Id>)
    requires Inv(s, h) && s.sched != [] && s.sched[0].state == Pending
    ensures Inv(Marked(s), h)
  {
    var head, w := s.sched[0], Marked(s);
    assert s.sched == [head] + s.sched[1..];
    MarkedBatch(head, s.sched[1..]);
    assert Hints(w) == Hints(s) + {head.id};
    SetStates(s.store, head.id, Scheduled, s.now);
    ClaimBudget.MarksKeeps(ViewOf(s, h), head.id, ViewOf(w, h));
  }

  // Pushing the head, or giving up on the batch, adds no hint.
  lemma PushedHints(c: Config, s: Sys)
    requires s.sched != [] && s.sched[0].state != Pending
    ensures var w := Pushed(c, s);
            && IdsOf(w.jobCh) + PushIds(w.sched) <= IdsOf(s.jobCh) + PushIds(s.sched)
            && MarkIds(w.sched) <= MarkIds(s.sched)
  {
    HeadApart(s.sched);
    HeadTail(s.sched);
    Appended(s.jobCh, s.sched[0]);
    assert PushIds([s.sched[0]]) == {s.sched[0].id};
    assert PushIds([]) == {} && MarkIds([]) == {};
  }

  lemma PushedKeeps(c: Config, s: Sys, h: multiset<Id>)
    requires Inv(s, h) && s.sched != [] && s.sched[0].state != Pending
    ensures Inv(Pushed(c, s), h)
  {
    PushedHints(c, s);
    assert Distinct(Pushed(c, s).sched);
    NoNewHintsKeep(s, Pushed(c, s), h);
  }

  lemma SchedReadKeeps(s: Sys, batch: seq<Job>, h: multiset<Id>)
    requires Inv(s, h) && s.sched == [] && Snapshot(s.store.jobs, batch)
    requires IdsOf(batch) <= ClaimableIds(s.store.jobs)
    ensures Inv(s.(sched := batch), h)
  {
    assert PushIds([]) == {} && MarkIds([]) == {};
    forall j | j in batch
      ensures j.id in s.store.jobs && s.store.jobs[j.id] == j && j.state.IsClaimable()
    {
      assert j.id in IdsOf(batch);
    }
    ClaimBudget.ReadsPendingKeeps(ViewOf(s, h), ViewOf(s.(sched := batch), h));
  }

  lemma DelayedReadKeeps(s: Sys, batch: seq<Job>, asOf: Time, h: multiset<Id>)
    requires Inv(s, h) && s.delayed == [] && Snapshot(s.store.jobs, batch)
    requires IdsOf(batch) <= DueIds(s.store.jobs, asOf)
    ensures Inv(s.(delayed := batch), h)
  {
    ClaimBudget.ReadsDueKeeps(ViewOf(s, h), ViewOf(s.(delayed := batch), h));
  }

  lemma ReleasedKeeps(s: Sys, h: multiset<Id>)
    requires Inv(s, h) && s.delayed != []
    ensures Inv(Released(s), h)
  {
    var head := s.delayed[0];
    HeadApart(s.delayed);
    assert IdsOf(s.delayed[1..]) == IdsOf(s.delayed) - {head.id};
    SetStates(s.store, head.id, Scheduled, s.now);
    ClaimBudget.ReleasesKeeps(ViewOf(s, h), head.id, ViewOf(Released(s), h));
  }

  lemma FetchKeeps(s: Sys, h: multiset<Id>)
    requires Inv(s, h) && s.jobCh != [] && s.fetched.None?
    ensures Inv(s.(fetched := Some(s.jobCh[0]), jobCh := s.jobCh[1..]), h)
  {
    HeadApart(s.jobCh);
    NoNewHintsKeep(s, s.(fetched := Some(s.jobCh[0]), jobCh := s.jobCh[1..]), h);
  }

  lemma ForwardKeeps(s: Sys, h: multiset<Id>)
    requires Inv(s, h) && s.fetched.Some?
    ensures Inv(s.(poolCh := s.poolCh + [s.fetched.value], fetched := None), h)
  {
    Appended(s.poolCh, s.fetched.value);
    NoNewHintsKeep(s, s.(poolCh := s.poolCh + [s.fetched.value], fetched := None), h);
  }

  lemma ReceivedKeeps(s: Sys, tid: Tid, h: multiset<Id>)
    requires Inv(s, h) && s.poolCh != []
    ensures Inv(Received(s, tid), h)
  {
    HeadApart(s.poolCh);
    HeldAfter(s.threads, tid, Holding(s.poolCh[0]));
    NoNewHintsKeep(s, Received(s, tid), h);
  }

  lemma ClaimedKeeps(c: Config, s: Sys, tid: Tid, h: multiset<Id>)
    requires Inv(s, h) && tid in s.threads && s.threads[tid].Holding?
    ensures Inv(Claimed(c, s, tid, s.threads[tid].entry.id), h)
  {
    var id := s.threads[tid].entry.id;
    var w := Claimed(c, s, tid, id);
    assert id in HeldIds(s.threads);
    HeldAfter(s.threads, tid, Executing(id));
    assert Hints(w) <= Hints(s);
    if Claimable(s.store.jobs, id) {
      WriteStates(s.store, Lifecycle.Claim(s.store.jobs[id], c.workerId, s.now), s.now);
      ClaimBudget.ClaimsKeeps(ViewOf(s, h), id, ViewOf(w, h));
    } else {
      NoNewHintsKeep(s, w, h);
    }
  }

  // A step of one thread that touches no job and takes no entry.
  lemma ThreadKeeps(s: Sys, tid: Tid, w: Sys, h: multiset<Id>)
    requires Inv(s, h)
    requires w == s.(store := w.store, threads := w.threads) && w.store.jobs == s.store.jobs
    requires w.threads == s.threads || w.threads == s.threads - {tid}
             || (tid in w.threads && !w.threads[tid].Holding? && w.threads == s.threads[tid := w.threads[tid]])
    ensures Inv(w, h)
  {
    HeldAfter(s.threads, tid, if tid in w.threads then w.threads[tid] else Executing(0));
    NoNewHintsKeep(s, w, h);
  }

  lemma ThreadStepKeeps(c: Config, s: Sys, e: Event, h: multiset<Id>)
    requires Inv(s, h) && Enabled(c, s, e)
    requires e.Checkpoint? || e.Finish? || e.Ask? || e.Save? || e.Record?
    ensures Inv(Next(c, s, e), h)
  {
    OneThreadSteps(c, s, e);
    ThreadKeeps(s, e.tid, Next(c, s, e), h);
  }

  lemma OneThreadSteps(c: Config, s: Sys, e: Event)
    requires Enabled(c, s, e) && (e.Checkpoint? || e.Finish? || e.Ask? || e.Save? || e.Record?)
    ensures var w := Next(c, s, e);
            && w == s.(store := w.store, threads := w.threads) && w.store.jobs == s.store.jobs
            && (w.threads == s.threads || w.threads == s.threads - {e.tid}
                || (e.tid in w.threads && !w.threads[e.tid].Holding? && w.threads == s.threads[e.tid := w.threads[e.tid]]))
  {
    if e.Finish? || e.Ask? {
      CallSteps(c, s, e);
    }
  }

  lemma CallSteps(c: Config, s: Sys, e: Event)
    requires Enabled(c, s, e) && (e.Finish? || e.Ask?)
    ensures var w := Next(c, s, e);
            && w == s.(threads := w.threads)
            && (w.threads == s.threads || w.threads == s.threads - {e.tid}
                || (e.tid in w.threads && !w.threads[e.tid].Holding? && w.threads == s.threads[e.tid := w.threads[e.tid]]))
  {
  }

  lemma EditedState(call: Call, snap: Job, t: Time, delay: Duration)
    ensures var j := Edited(call, snap, t, delay);
            && j.id == snap.id
            && (if call.Retry? then j.state == Pending else j.state.IsTerminal() || j.state == Retrying)
  {
  }

  // A full-record write, seen by the accounting.
  lemma WrittenView(s: Sys, tid: Tid, t: Time, delay: Duration, h: multiset<Id>)
    requires Inv(s, h) && tid in s.threads && s.threads[tid].Writing?
    ensures var th := s.threads[tid];
            var w, job := Written(s, tid, th, t, delay), Edited(th.call, th.snap, t, delay);
            && KeyedById(w.store)
            && forall k :: ViewOf(w, k) ==
                 ViewOf(s, k).(states := ClaimBudget.Put(StatesOf(s.store.jobs), job.id, job.state), retries := w.retries)
  {
    var th := s.threads[tid];
    var w, job := Written(s, tid, th, t, delay), Edited(th.call, th.snap, t, delay);
    WriteStates(s.store, job, s.now);
    HeldAfter(s.threads, tid, if th.call.Complete? then Recording(th.call.result) else th);
    assert Hints(w) == Hints(s);
  }

  lemma WrittenKeeps(s: Sys, tid: Tid, t: Time, delay: Duration, h: multiset<Id>)
    requires Inv(s, h) && tid in s.threads && s.threads[tid].Writing?
    ensures Inv(Written(s, tid, s.threads[tid], t, delay),
                h + HintedWrite(s, s.threads[tid].call, s.threads[tid].snap.id))
  {
    var th := s.threads[tid];
    var w, job := Written(s, tid, th, t, delay), Edited(th.call, th.snap, t, delay);
    EditedState(th.call, th.snap, t, delay);
    WrittenView(s, tid, t, delay, h);
    assert h + multiset{} == h;
    if !th.call.Retry? {
      ClaimBudget.SettlesKeeps(ViewOf(s, h), job.id, job.state, ViewOf(w, h));
    } else if job.id in s.store.jobs {
      ClaimBudget.ReopensKeeps(ViewOf(s, h), job.id, ViewOf(w, h + HintedWrite(s, th.call, job.id)));
    }
  }

  lemma RecoveredKeeps(s: Sys, t: Time, h: multiset<Id>)
    requires Inv(s, h) && s.recov != []
    ensures Inv(Recovered(s, t), h)
  {
    var job := Lifecycle.Recover(s.recov[0], t);
    WriteStates(s.store, job, s.now);
    ClaimBudget.SettlesKeeps(ViewOf(s, h), job.id, job.state, ViewOf(Recovered(s, t), h));
  }

  lemma SubmittedStore(s: Sys, job: Job)
    requires Create(s.store, job).1 == Done
    ensures var w := Submitted(s, job);
            && w.store.jobs == s.store.jobs[job.id := job]
            && w == s.(store := w.store, created := s.created[job.id := job.idempotencyKey])
  {
  }

  lemma SubmittedView(s: Sys, job: Job, w: Sys, h: multiset<Id>)
    requires w.store.jobs == s.store.jobs[job.id := job]
    requires w == s.(store := w.store, created := s.created[job.id := job.idempotencyKey])
    ensures var v := ViewOf(s, h);
            ViewOf(w, h) == v.(states := v.states[job.id := job.state], created := v.created + {job.id})
  {
    assert StatesOf(w.store.jobs) == StatesOf(s.store.jobs)[job.id := job.state];
    assert w.created.Keys == s.created.Keys + {job.id};
  }

  lemma SubmittedKeeps(s: Sys, job: Job, h: multiset<Id>)
    requires Inv(s, h) && Untouched(job) && job.id !in s.created
    ensures Inv(Submitted(s, job), h)
  {
    var w := Submitted(s, job);
    if Create(s.store, job).1 == Done {
      SubmittedStore(s, job);
      SubmittedView(s, job, w, h);
      ClaimBudget.AddsKeeps(ViewOf(s, h), job.id, job.state, ViewOf(w, h));
    }
  }

  lemma RemovedKeeps(s: Sys, ids: set<Id>, w: Sys, h: multiset<Id>)
    requires Inv(s, h)
    requires w == s.(store := JobStore.Remove(s.store, ids), deleted := w.deleted, swept := w.swept)
    ensures Inv(w, h)
  {
    ClaimBudget.DropsKeep(ViewOf(s, h), ViewOf(w, h));
  }

  lemma CrashedKeeps(s: Sys, h: multiset<Id>)
    requires Inv(s, h)
    ensures Inv(Crashed(s), h)
  {
    assert Hints(Crashed(s)) == {} && MarkIds([]) == {};
    ClaimBudget.DropsKeep(ViewOf(s, h), ViewOf(Crashed(s), h));
  }

  lemma SameViewKeeps(c: Config, s: Sys, e: Event, h: multiset<Id>)
    requires Inv(s, h) && Enabled(c, s, e) && (e.Tick? || e.RecoverRead?)
    ensures Inv(Next(c, s, e), h)
  {
    assert ViewOf(Next(c, s, e), h) == ViewOf(s, h);
  }

  lemma StepKeeps(c: Config, s: Sys, e: Event, h: multiset<Id>)
    requires Inv(s, h) && Enabled(c, s, e)
    ensures Inv(Next(c, s, e), h + HintedBy(s, e))
  {
    assert h + multiset{} == h;
    match e {
      case Submit(job) => SubmittedKeeps(s, job, h);
      case SchedRead(batch) =>
        ClaimableIsPendingFilter(s.store.jobs, c.batchSize);
        SchedReadKeeps(s, batch, h);
      case SchedMark => MarkedKeeps(s, h);
      case SchedPush => PushedKeeps(c, s, h);
      case DelayedRead(batch, asOf) => DelayedReadKeeps(s, batch, asOf, h);
      case DelayedMark => ReleasedKeeps(s, h);
      case Fetch => FetchKeeps(s, h);
      case Forward => ForwardKeeps(s, h);
      case Receive(tid) => ReceivedKeeps(s, tid, h);
      case ClaimEntry(tid) => ClaimedKeeps(c, s, tid, h);
      case Write(tid, t, delay) => WrittenKeeps(s, tid, t, delay, h);
      case RecoverWrite(t) => RecoveredKeeps(s, t, h);
      case Remove(id) => if id in s.store.jobs { RemovedKeeps(s, {id}, Removed(s, id), h); }
      case Sweep(cutoff) => RemovedKeeps(s, ExpiredIds(s.store.jobs, cutoff), Swept(s, cutoff), h);
      case Crash => CrashedKeeps(s, h);
      case Tick(_) | RecoverRead(_, _) => SameViewKeeps(c, s, e, h);
      case _ => ThreadStepKeeps(c, s, e, h);
    }
  }

  lemma SumOfHinted(a: multiset<Id>, b: multiset<Id>, c: multiset<Id>)
    ensures a + b + c == a + (b + c)
  {
  }

  lemma {:induction false} RunKeeps(c: Config, s: Sys, events: seq<Event>, h: multiset<Id>)
    requires Inv(s, h) && Run(c, s, events)
    ensures Inv(After(c, s, events), h + HintedRetries(c, s, events))
    decreases |events|
  {
    if events == [] {
      assert h + multiset{} == h;
    } else {
      var more, next := HintedBy(s, events[0]), Next(c, s, events[0]);
      StepKeeps(c, s, events[0], h);
      RunKeeps(c, next, events[1..], h + more);
      SumOfHinted(h, more, HintedRetries(c, next, events[1..]));
    }
  }

  // ----- The bound -----

  // Whatever the interleaving, crashes, forced cancels, recoveries and duplicate channel entries
  // included: a job is claimed at most once, plus once for every record that Retry has written to it,
  // plus once more for each of those that landed while an entry for the job was in hand.
  lemma ClaimsAreBounded(c: Config, events: seq<Event>, id: Id)
    requires Run(c, INIT, events)
    ensures var end, hinted := After(c, INIT, events), HintedRetries(c, INIT, events);
            && end.claims[id] <= 1 + end.retries[id] + hinted[id]
            && hinted[id] <= end.retries[id]
  {
    var end, hinted := After(c, INIT, events), HintedRetries(c, INIT, events);
    InitInv();
    RunKeeps(c, INIT, events, multiset{});
    assert multiset{} + hinted == hinted;
    if id in end.claims {
      assert ClaimBudget.Within(ViewOf(end, hinted), id);
    }
  }

  lemma InitInv()
    ensures Inv(INIT, multiset{})
  {
  }
}
