// What the protocol's late writes do to a job that has ended or waits for a retry: which steps change
// its state, and when none is left that can.
module LateWrites {
  import opened Core
  import opened JobStore
  import opened Protocol
  import Lifecycle
  import ProtocolClaims
  import ProtocolRecords

  // ----- One step -----

  // Records stay under their ids, and every stored id has been created.
  ghost predicate Tidy(s: Sys) {
    KeyedById(s.store) && s.store.jobs.Keys <= s.created.Keys
  }

  lemma InvIsTidy(s: Sys)
    requires ProtocolRecords.Inv(s)
    ensures Tidy(s)
  {
    forall id | id in s.store.jobs ensures id in s.created {
      assert ProtocolRecords.GoodJob(s, id);
    }
  }

  lemma ReachedIsTidy(c: Config, events: seq<Event>)
    requires Run(c, INIT, events)
    ensures Tidy(After(c, INIT, events))
  {
    ProtocolRecords.RunKeeps(c, INIT, events);
    InvIsTidy(After(c, INIT, events));
  }

  // The state a full-record write leaves, by the call and the record it has read.
  function WrittenState(call: Call, snap: Job): JobState {
    match call
    case Complete(_) => Completed
    case Cancel(_, _) => Cancelled
    case Retry(_) => Pending
    case Fail(r) =>
      if snap.attempt >= snap.maxAttempts then DeadLetter
      else if Lifecycle.EffectiveCategory(r) == Temporary then Retrying
      else Failed
  }

  ghost predicate StateIs(s: Sys, id: Id, state: Option<JobState>) {
    if state.Some? then id in s.store.jobs && s.store.jobs[id].state == state.value else id !in s.store.jobs
  }

  // The steps that act on the record of one job, whatever has become of it since they read it.
  predicate ActsOn(s: Sys, e: Event, id: Id) {
    match e
    case SchedMark => s.sched != [] && s.sched[0].id == id
    case DelayedMark => s.delayed != [] && s.delayed[0].id == id
    case RecoverWrite(_) => s.recov != [] && s.recov[0].id == id
    case Write(tid, _, _) => tid in s.threads && s.threads[tid].Writing? && s.threads[tid].snap.id == id
    case _ => false
  }

  // The state they leave.
  function Left(s: Sys, e: Event, id: Id): JobState
    requires ActsOn(s, e, id)
  {
    match e
    case RecoverWrite(_) => if s.recov[0].attempt < s.recov[0].maxAttempts then Retrying else DeadLetter
    case Write(tid, _, _) => WrittenState(s.threads[tid].call, s.threads[tid].snap)
    case _ => Scheduled
  }

  lemma CallLeaves(c: Config, s: Sys, e: Event, id: Id)
    requires Tidy(s) && id in s.store.jobs && Enabled(c, s, e) && e.Write? && ActsOn(s, e, id)
    ensures StateIs(Next(c, s, e), id, Some(Left(s, e, id)))
  {
    var th := s.threads[e.tid];
    var job := Edited(th.call, th.snap, e.t, e.delay);
    assert job.id == id && job.state == WrittenState(th.call, th.snap);
  }

  lemma WriteLeaves(c: Config, s: Sys, e: Event, id: Id)
    requires Tidy(s) && id in s.store.jobs && Enabled(c, s, e) && ActsOn(s, e, id)
    ensures StateIs(Next(c, s, e), id, Some(Left(s, e, id)))
  {
    if e.Write? {
      CallLeaves(c, s, e, id);
    }
  }

  // The steps that write no job.
  predicate WritesNoJob(e: Event) {
    match e
    case Submit(_) | SchedMark | DelayedMark | ClaimEntry(_) | Write(_, _, _) | RecoverWrite(_) => false
    case Remove(_) | Sweep(_) => false
    case _ => true
  }

  lemma NoJobWritten(c: Config, s: Sys, e: Event)
    requires Enabled(c, s, e) && WritesNoJob(e)
    ensures Next(c, s, e).store.jobs == s.store.jobs
  {
  }

  lemma OtherJobWritten(c: Config, s: Sys, e: Event, id: Id)
    requires Tidy(s) && id in s.store.jobs && Enabled(c, s, e) && !ActsOn(s, e, id)
    requires e.SchedMark? || e.DelayedMark? || e.RecoverWrite? || e.Write?
    ensures id in Next(c, s, e).store.jobs && Next(c, s, e).store.jobs[id] == s.store.jobs[id]
  {
    if e.Write? {
      OtherCallWritten(c, s, e, id);
    }
  }

  lemma OtherCallWritten(c: Config, s: Sys, e: Event, id: Id)
    requires Tidy(s) && id in s.store.jobs && Enabled(c, s, e) && e.Write? && !ActsOn(s, e, id)
    ensures id in Next(c, s, e).store.jobs && Next(c, s, e).store.jobs[id] == s.store.jobs[id]
  {
    var th := s.threads[e.tid];
    assert Edited(th.call, th.snap, e.t, e.delay).id == th.snap.id;
  }

  lemma NotClaimed(c: Config, s: Sys, e: Event, id: Id)
    requires Tidy(s) && id in s.store.jobs && Enabled(c, s, e) && (e.Submit? || e.ClaimEntry?)
    requires !s.store.jobs[id].state.IsClaimable()
    ensures id in Next(c, s, e).store.jobs && Next(c, s, e).store.jobs[id] == s.store.jobs[id]
  {
  }

  // Every other step leaves the job's record alone, removes it, or claims it from a claimable state.
  lemma OthersLeaveAlone(c: Config, s: Sys, e: Event, id: Id)
    requires Tidy(s) && id in s.store.jobs && Enabled(c, s, e) && !ActsOn(s, e, id)
    requires !s.store.jobs[id].state.IsClaimable()
    ensures if (e.Remove? && e.id == id) || (e.Sweep? && Expired(s.store.jobs[id], e.cutoff))
            then id !in Next(c, s, e).store.jobs
            else id in Next(c, s, e).store.jobs && Next(c, s, e).store.jobs[id] == s.store.jobs[id]
  {
    if WritesNoJob(e) {
      NoJobWritten(c, s, e);
    } else if e.Submit? || e.ClaimEntry? {
      NotClaimed(c, s, e, id);
    } else if !e.Remove? && !e.Sweep? {
      OtherJobWritten(c, s, e, id);
    }
  }

  // ----- Terminal jobs -----

  ghost predicate Stays(c: Config, s: Sys, e: Event, id: Id)
    requires Enabled(c, s, e) && id in s.store.jobs
  {
    StateIs(Next(c, s, e), id, Some(s.store.jobs[id].state))
  }

  // A terminal job changes its state exactly by these steps: a mark or a release from a batch that has
  // read it earlier; a recovery that read it Running, unless it is a DeadLetter again; a write by a call
  // that read it earlier, unless it is what the call makes of it again; and removal.
  predicate Moves(s: Sys, e: Event, id: Id)
    requires id in s.store.jobs
  {
    var now := s.store.jobs[id].state;
    match e
    case SchedMark => s.sched != [] && s.sched[0].id == id
    case DelayedMark => s.delayed != [] && s.delayed[0].id == id
    case RecoverWrite(_) =>
      && s.recov != [] && s.recov[0].id == id
      && (now == DeadLetter ==> s.recov[0].attempt < s.recov[0].maxAttempts)
    case Write(tid, _, _) =>
      && tid in s.threads && s.threads[tid].Writing? && s.threads[tid].snap.id == id
      && Replaces(s.threads[tid].call, s.threads[tid].snap, now)
    case Remove(i) => i == id
    case Sweep(cutoff) => Expired(s.store.jobs[id], cutoff)
    case _ => false
  }

  // Does the call make something else of a terminal job than it is?
  predicate Replaces(call: Call, snap: Job, now: JobState) {
    match call
    case Complete(_) => now != Completed
    case Cancel(_, _) => now != Cancelled
    case Retry(_) => true
    case Fail(r) =>
      match now
      case DeadLetter => snap.attempt < snap.maxAttempts
      case Failed => snap.attempt >= snap.maxAttempts || Lifecycle.EffectiveCategory(r) == Temporary
      case _ => true
  }

  lemma WhatMovesATerminalJob(c: Config, events: seq<Event>, e: Event, id: Id)
    requires Run(c, INIT, events)
    requires var s := After(c, INIT, events);
             Enabled(c, s, e) && id in s.store.jobs && s.store.jobs[id].IsTerminal()
    ensures !Stays(c, After(c, INIT, events), e, id) <==> Moves(After(c, INIT, events), e, id)
  {
    ReachedIsTidy(c, events);
    TerminalStep(c, After(c, INIT, events), e, id);
  }

  lemma TerminalStep(c: Config, s: Sys, e: Event, id: Id)
    requires Tidy(s) && Enabled(c, s, e) && id in s.store.jobs && s.store.jobs[id].IsTerminal()
    ensures !Stays(c, s, e, id) <==> Moves(s, e, id)
  {
    if ActsOn(s, e, id) {
      WriteLeaves(c, s, e, id);
    } else {
      OthersLeaveAlone(c, s, e, id);
    }
  }

  // ----- Settled jobs -----

  predicate Touches(th: Thread, id: Id) {
    match th
    case Executing(i) => i == id
    case Saving(_, snap, _) => snap.id == id
    case Writing(_, snap, _) => snap.id == id
    case _ => false
  }

  // A terminal job that no loop, no call and no execution has in hand.
  ghost predicate Settled(s: Sys, id: Id) {
    && id in s.store.jobs && s.store.jobs[id].IsTerminal()
    && InNoBatch(s, id)
    && forall tid :: tid in s.threads ==> !Touches(s.threads[tid], id)
  }

  // A Retry that will be accepted, or the job's removal.
  predicate Disturbs(s: Sys, e: Event, id: Id) {
    match e
    case Ask(_, i, call) => i == id && call.Retry? && id in s.store.jobs && Lifecycle.Retriable(s.store.jobs[id])
    case Remove(i) => i == id
    case Sweep(cutoff) => id in s.store.jobs && Expired(s.store.jobs[id], cutoff)
    case _ => false
  }

  ghost predicate Undisturbed(c: Config, s: Sys, events: seq<Event>, id: Id)
    requires Run(c, s, events)
    decreases |events|
  {
    events == [] || (!Disturbs(s, events[0], id) && Undisturbed(c, Next(c, s, events[0]), events[1..], id))
  }

  lemma SettledRecord(c: Config, s: Sys, e: Event, id: Id)
    requires Tidy(s) && Settled(s, id) && Enabled(c, s, e) && !Disturbs(s, e, id)
    ensures id in Next(c, s, e).store.jobs && Next(c, s, e).store.jobs[id] == s.store.jobs[id]
  {
    assert !ActsOn(s, e, id);
    OthersLeaveAlone(c, s, e, id);
  }

  // Neither scheduler loop has the job in hand to set it to Scheduled.
  ghost predicate InNoQueue(s: Sys, id: Id) {
    id !in ProtocolClaims.MarkIds(s.sched) && id !in IdsOf(s.delayed)
  }

  // No listing of claimable or due jobs holds it.
  ghost predicate Unlisted(s: Sys, id: Id) {
    id in s.store.jobs ==> !s.store.jobs[id].state.IsClaimable() && s.store.jobs[id].state != Delayed
  }

  lemma QueueReads(c: Config, s: Sys, e: Event, id: Id)
    requires Unlisted(s, id) && InNoQueue(s, id) && Enabled(c, s, e) && (e.SchedRead? || e.DelayedRead?)
    ensures InNoQueue(Next(c, s, e), id)
  {
    if e.SchedRead? {
      ClaimableIsPendingFilter(s.store.jobs, c.batchSize);
      NotRead(s, e.batch, ClaimableIds(s.store.jobs), id);
    } else {
      NotRead(s, e.batch, DueIds(s.store.jobs, e.asOf), id);
    }
  }

  lemma QueuePops(c: Config, s: Sys, e: Event, id: Id)
    requires InNoQueue(s, id) && Enabled(c, s, e) && (e.SchedMark? || e.SchedPush? || e.DelayedMark?)
    ensures InNoQueue(Next(c, s, e), id)
  {
    if !e.DelayedMark? {
      assert s.sched == [s.sched[0]] + s.sched[1..];
    }
  }

  lemma QueueStays(c: Config, s: Sys, e: Event, id: Id)
    requires Unlisted(s, id) && InNoQueue(s, id) && Enabled(c, s, e)
    ensures InNoQueue(Next(c, s, e), id)
  {
    if e.SchedRead? || e.DelayedRead? {
      QueueReads(c, s, e, id);
    } else if e.SchedMark? || e.SchedPush? || e.DelayedMark? {
      QueuePops(c, s, e, id);
    } else if !e.RecoverRead? && !e.RecoverWrite? {
      SameBatches(c, s, e);
    }
  }

  ghost predicate InNoBatch(s: Sys, id: Id) {
    InNoQueue(s, id) && id !in IdsOf(s.recov)
  }

  lemma SettledBatches(c: Config, s: Sys, e: Event, id: Id)
    requires Settled(s, id) && Enabled(c, s, e)
    ensures InNoBatch(Next(c, s, e), id)
  {
    QueueStays(c, s, e, id);
    SettledRecov(c, s, e, id);
  }

  lemma SettledRecov(c: Config, s: Sys, e: Event, id: Id)
    requires Settled(s, id) && Enabled(c, s, e)
    ensures id !in IdsOf(Next(c, s, e).recov)
  {
    if e.RecoverRead? {
      NotRead(s, e.batch, StuckIds(s.store.jobs, e.asOf - c.visibility), id);
    } else {
      RecovShrinks(c, s, e);
    }
  }

  lemma RecovShrinks(c: Config, s: Sys, e: Event)
    requires Enabled(c, s, e) && !e.RecoverRead?
    ensures IdsOf(Next(c, s, e).recov) <= IdsOf(s.recov)
  {
  }

  // The steps that read no batch and take nothing from one.
  lemma SameBatches(c: Config, s: Sys, e: Event)
    requires Enabled(c, s, e)
    requires !e.SchedRead? && !e.DelayedRead? && !e.RecoverRead?
    requires !e.SchedMark? && !e.SchedPush? && !e.DelayedMark? && !e.RecoverWrite?
    ensures var w := Next(c, s, e);
            && (w.sched == s.sched || w.sched == []) && (w.delayed == s.delayed || w.delayed == [])
            && (w.recov == s.recov || w.recov == [])
  {
  }

  lemma NotRead(s: Sys, batch: seq<Job>, pool: set<Id>, id: Id)
    requires IdsOf(batch) <= pool && id !in pool
    ensures id !in IdsOf(batch) && id !in ProtocolClaims.MarkIds(batch)
  {
  }

  lemma SettledAskOrFinish(c: Config, s: Sys, e: Event, id: Id)
    requires Tidy(s) && Settled(s, id) && Enabled(c, s, e) && !Disturbs(s, e, id) && (e.Ask? || e.Finish?)
    ensures forall tid :: tid in Next(c, s, e).threads ==> !Touches(Next(c, s, e).threads[tid], id)
  {
  }

  lemma SettledThreads(c: Config, s: Sys, e: Event, id: Id)
    requires Tidy(s) && Settled(s, id) && Enabled(c, s, e) && !Disturbs(s, e, id)
    ensures forall tid :: tid in Next(c, s, e).threads ==> !Touches(Next(c, s, e).threads[tid], id)
  {
    if e.Ask? || e.Finish? {
      SettledAskOrFinish(c, s, e, id);
    }
  }

  lemma {:induction false} SettledStays(c: Config, s: Sys, events: seq<Event>, id: Id)
    requires ProtocolRecords.Inv(s) && Settled(s, id) && Run(c, s, events) && Undisturbed(c, s, events, id)
    ensures Settled(After(c, s, events), id) && After(c, s, events).store.jobs[id] == s.store.jobs[id]
    decreases |events|
  {
    if events != [] {
      InvIsTidy(s);
      SettledRecord(c, s, events[0], id);
      SettledBatches(c, s, events[0], id);
      SettledThreads(c, s, events[0], id);
      ProtocolRecords.StepKeeps(c, s, events[0]);
      SettledStays(c, Next(c, s, events[0]), events[1..], id);
    }
  }

  // A settled job keeps its whole record in every further run, crashes included, until a Retry of it is
  // accepted or it is removed.
  lemma SettledJobsStay(c: Config, before: seq<Event>, later: seq<Event>, id: Id)
    requires Run(c, INIT, before) && Settled(After(c, INIT, before), id)
    requires Run(c, After(c, INIT, before), later) && Undisturbed(c, After(c, INIT, before), later, id)
    ensures var s, end := After(c, INIT, before), After(c, After(c, INIT, before), later);
            Settled(end, id) && end.store.jobs[id] == s.store.jobs[id]
  {
    ProtocolRecords.RunKeeps(c, INIT, before);
    SettledStays(c, After(c, INIT, before), later, id);
  }

  // ----- Retrying jobs -----

  // The step makes the job one that a worker may claim.
  ghost predicate Promotes(c: Config, s: Sys, e: Event, id: Id)
    requires Enabled(c, s, e)
  {
    id in Next(c, s, e).store.jobs && Next(c, s, e).store.jobs[id].state.IsClaimable()
  }

  // Nothing promotes a Retrying job when its backoff has expired: only a mark or a release from a batch
  // that read it before it was claimed, or a Retry that read it after an earlier failure.
  lemma WhatPromotesARetryingJob(c: Config, events: seq<Event>, e: Event, id: Id)
    requires Run(c, INIT, events)
    requires var s := After(c, INIT, events);
             Enabled(c, s, e) && id in s.store.jobs && s.store.jobs[id].state == Retrying
    ensures var s := After(c, INIT, events);
            Promotes(c, s, e, id) <==>
            || (e.SchedMark? && s.sched[0].id == id)
            || (e.DelayedMark? && s.delayed[0].id == id)
            || (e.Write? && s.threads[e.tid].call.Retry? && s.threads[e.tid].snap.id == id)
  {
    ReachedIsTidy(c, events);
    RetryingStep(c, After(c, INIT, events), e, id);
  }

  lemma RetryingStep(c: Config, s: Sys, e: Event, id: Id)
    requires Tidy(s) && Enabled(c, s, e) && id in s.store.jobs && s.store.jobs[id].state == Retrying
    ensures Promotes(c, s, e, id) <==>
            || (e.SchedMark? && s.sched[0].id == id)
            || (e.DelayedMark? && s.delayed[0].id == id)
            || (e.Write? && s.threads[e.tid].call.Retry? && s.threads[e.tid].snap.id == id)
  {
    if ActsOn(s, e, id) {
      WriteLeaves(c, s, e, id);
    } else {
      OthersLeaveAlone(c, s, e, id);
    }
  }
}
