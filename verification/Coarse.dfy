// The protocol with every scheduler, recovery and store action on one job as a single step: how many
// executions of a job are alive, and which steps leave a terminal state.
module Coarse {
  import opened Core
  import opened JobStore
  import Actions
  import Lifecycle

  datatype Sys = Sys(
    store: Store,
    live: multiset<Id>,       // executions that have not reported yet
    forced: multiset<Id>,     // forced cancels of a Running job
    recovered: multiset<Id>,  // recoveries of a Running job
    deleted: multiset<Id>,
    created: set<Id>,
    crashes: nat)

  const INIT := Sys(EMPTY, multiset{}, multiset{}, multiset{}, multiset{}, {}, 0)

  datatype Step =
    | Submit(job: Job)
    | Schedule(id: Id, now: Time)
    | Release(id: Id, now: Time)
    | Claim(id: Id, worker: string, now: Time)
    | Succeed(id: Id, result: JobResult, now: Time)
    | Err(id: Id, result: JobResult, delay: Duration, now: Time)
    | Cancel(id: Id, reason: string, force: bool, now: Time)
    | Retry(id: Id, resetAttempts: bool, now: Time)
    | Recover(id: Id, now: Time, timeout: Duration)
    | Delete(id: Id)
    | Cleanup(cutoff: Time)
    | Crash

  predicate IsRunning(s: Sys, id: Id) {
    id in s.store.jobs && s.store.jobs[id].state == Running
  }

  predicate Enabled(s: Sys, e: Step) {
    match e
    case Submit(job) => Untouched(job) && job.id !in s.created
    case Succeed(id, _, _) => id in s.live
    case Err(id, _, _, _) => id in s.live
    case _ => true
  }

  function Next(s: Sys, e: Step): Sys
    requires Enabled(s, e)
  {
    match e
    case Submit(job) =>
      var (st, status) := Create(s.store, job);
      if status == Done then s.(store := st, created := s.created + {job.id}) else s
    case Schedule(id, now) => s.(store := Actions.Schedule(s.store, id, now))
    case Release(id, now) => s.(store := Actions.Release(s.store, id, now))
    case Claim(id, worker, now) =>
      var (st, claimed, _) := ClaimJob(s.store, id, worker, now);
      if claimed then s.(store := st, live := s.live + multiset{id}) else s
    case Succeed(id, result, now) =>
      s.(store := Actions.Complete(s.store, id, result, now).0, live := s.live - multiset{id})
    case Err(id, result, delay, now) =>
      s.(store := Actions.Fail(s.store, id, result, delay, now).0, live := s.live - multiset{id})
    case Cancel(id, reason, force, now) =>
      s.(store := Actions.Cancel(s.store, id, reason, force, now).0,
         forced := if force && IsRunning(s, id) then s.forced + multiset{id} else s.forced)
    case Retry(id, reset, now) => s.(store := Actions.Retry(s.store, id, reset, now).0)
    case Recover(id, now, timeout) =>
      if id in s.store.jobs && Lifecycle.Stuck(s.store.jobs[id], now - timeout) then
        s.(store := Actions.Recover(s.store, s.store.jobs[id], now).0, recovered := s.recovered + multiset{id})
      else s
    case Delete(id) =>
      var (st, status) := JobStore.Delete(s.store, id);
      if status == Done then s.(store := st, deleted := s.deleted + multiset{id}) else s
    case Cleanup(cutoff) => s.(store := JobStore.Cleanup(s.store, cutoff).0)
    case Crash => s.(live := multiset{}, crashes := s.crashes + 1)
  }

  predicate Run(s: Sys, steps: seq<Step>)
    decreases |steps|
  {
    steps == [] || (Enabled(s, steps[0]) && Run(Next(s, steps[0]), steps[1..]))
  }

  function After(s: Sys, steps: seq<Step>): Sys
    requires Run(s, steps)
    decreases |steps|
  {
    if steps == [] then s else After(Next(s, steps[0]), steps[1..])
  }

  // ----- The invariant -----

  function Strays(s: Sys, id: Id): nat {
    s.forced[id] + s.recovered[id] + s.deleted[id]
  }

  ghost predicate Good(s: Sys, id: Id) {
    && s.live[id] <= One(IsRunning(s, id)) + Strays(s, id)
    && (s.crashes == 0 && Strays(s, id) == 0 ==> s.live[id] == One(IsRunning(s, id)))
    && (id !in s.created ==> id !in s.store.jobs && s.live[id] == 0 && Strays(s, id) == 0)
  }

  ghost predicate Inv(s: Sys) {
    KeyedById(s.store) && forall id :: Good(s, id)
  }

  // One job is written, counted or removed; every other one is left alone.
  ghost predicate OnlyTouches(s: Sys, s': Sys, id: Id) {
    && (forall other :: other != id ==>
          && (other in s'.store.jobs <==> other in s.store.jobs)
          && (other in s.store.jobs ==> s'.store.jobs[other] == s.store.jobs[other])
          && s'.live[other] == s.live[other] && Strays(s', other) == Strays(s, other)
          && (other in s'.created <==> other in s.created))
    && s'.crashes == s.crashes
  }

  lemma TouchKeeps(s: Sys, s': Sys, id: Id)
    requires Inv(s) && OnlyTouches(s, s', id)
    requires KeyedById(s'.store) && Good(s', id)
    ensures Inv(s')
  {
    forall other ensures Good(s', other) {
      assert Good(s, other);
    }
  }

  lemma SucceedKeeps(s: Sys, e: Step)
    requires Inv(s) && Enabled(s, e) && e.Succeed?
    ensures Inv(Next(s, e))
  {
    assert Good(s, e.id);
    if e.id in s.store.jobs {
      Actions.OutcomeStates(s.store, e.id, e.result, 0, e.now);
    }
    TouchKeeps(s, Next(s, e), e.id);
  }

  lemma ErrKeeps(s: Sys, e: Step)
    requires Inv(s) && Enabled(s, e) && e.Err?
    ensures Inv(Next(s, e))
  {
    assert Good(s, e.id);
    if e.id in s.store.jobs {
      Actions.OutcomeStates(s.store, e.id, e.result, e.delay, e.now);
    }
    TouchKeeps(s, Next(s, e), e.id);
  }

  lemma ClaimKeeps(s: Sys, e: Step)
    requires Inv(s) && Enabled(s, e) && e.Claim?
    ensures Inv(Next(s, e))
  {
    assert Good(s, e.id);
    TouchKeeps(s, Next(s, e), e.id);
  }

  lemma CancelKeeps(s: Sys, e: Step)
    requires Inv(s) && Enabled(s, e) && e.Cancel?
    ensures Inv(Next(s, e))
  {
    assert Good(s, e.id);
    TouchKeeps(s, Next(s, e), e.id);
  }

  lemma RetryKeeps(s: Sys, e: Step)
    requires Inv(s) && Enabled(s, e) && e.Retry?
    ensures Inv(Next(s, e))
  {
    assert Good(s, e.id);
    TouchKeeps(s, Next(s, e), e.id);
  }

  lemma RecoverKeeps(s: Sys, e: Step)
    requires Inv(s) && Enabled(s, e) && e.Recover?
    ensures Inv(Next(s, e))
  {
    assert Good(s, e.id);
    if e.id in s.store.jobs && Lifecycle.Stuck(s.store.jobs[e.id], e.now - e.timeout) {
      RecoveredRecord(s.store, e.id, e.now);
    }
    TouchKeeps(s, Next(s, e), e.id);
  }

  lemma RecoveredRecord(s: Store, id: Id, now: Time)
    requires KeyedById(s) && id in s.jobs
    ensures var w := Actions.Recover(s, s.jobs[id], now).0;
            && w == s.(jobs := s.jobs[id := w.jobs[id]]) && w.jobs[id].id == id
            && (w.jobs[id].state == Retrying || w.jobs[id].state == DeadLetter)
  {
  }

  lemma LoopKeeps(s: Sys, e: Step)
    requires Inv(s) && Enabled(s, e) && (e.Schedule? || e.Release?)
    ensures Inv(Next(s, e))
  {
    assert Good(s, e.id);
    TouchKeeps(s, Next(s, e), e.id);
  }

  lemma SubmitKeeps(s: Sys, e: Step)
    requires Inv(s) && Enabled(s, e) && e.Submit?
    ensures Inv(Next(s, e))
  {
    assert Good(s, e.job.id);
    TouchKeeps(s, Next(s, e), e.job.id);
  }

  lemma DeleteKeeps(s: Sys, e: Step)
    requires Inv(s) && Enabled(s, e) && e.Delete?
    ensures Inv(Next(s, e))
  {
    assert Good(s, e.id);
    TouchKeeps(s, Next(s, e), e.id);
  }

  lemma CleanupKeeps(s: Sys, e: Step)
    requires Inv(s) && Enabled(s, e) && (e.Cleanup? || e.Crash?)
    ensures Inv(Next(s, e))
  {
    forall id ensures Good(Next(s, e), id) {
      assert Good(s, id);
    }
  }

  lemma StepKeeps(s: Sys, e: Step)
    requires Inv(s) && Enabled(s, e)
    ensures Inv(Next(s, e))
  {
    match e {
      case Submit(_) => SubmitKeeps(s, e);
      case Schedule(_, _) => LoopKeeps(s, e);
      case Release(_, _) => LoopKeeps(s, e);
      case Claim(_, _, _) => ClaimKeeps(s, e);
      case Succeed(_, _, _) => SucceedKeeps(s, e);
      case Err(_, _, _, _) => ErrKeeps(s, e);
      case Cancel(_, _, _, _) => CancelKeeps(s, e);
      case Retry(_, _, _) => RetryKeeps(s, e);
      case Recover(_, _, _) => RecoverKeeps(s, e);
      case Delete(_) => DeleteKeeps(s, e);
      case _ => CleanupKeeps(s, e);
    }
  }

  lemma {:induction false} RunKeeps(s: Sys, steps: seq<Step>)
    requires Inv(s) && Run(s, steps)
    ensures Inv(After(s, steps))
    decreases |steps|
  {
    if steps != [] {
      StepKeeps(s, steps[0]);
      RunKeeps(Next(s, steps[0]), steps[1..]);
    }
  }

  // ----- The results -----

  // In every run, crashes included, a job has at most one execution besides those that a forced
  // cancel, a recovery or a delete cut loose; without these and without a crash, exactly one while it
  // is Running and none otherwise.
  lemma LiveExecutions(steps: seq<Step>, id: Id)
    requires Run(INIT, steps)
    ensures var s := After(INIT, steps);
            && s.live[id] <= One(IsRunning(s, id)) + s.forced[id] + s.recovered[id] + s.deleted[id]
            && (s.crashes == 0 && s.forced[id] == 0 && s.recovered[id] == 0 && s.deleted[id] == 0 ==>
                  s.live[id] == One(IsRunning(s, id)))
  {
    RunKeeps(INIT, steps);
    assert Good(After(INIT, steps), id);
  }

  predicate Stays(s: Sys, e: Step, id: Id)
    requires Enabled(s, e) && id in s.store.jobs
  {
    id in Next(s, e).store.jobs && Next(s, e).store.jobs[id].state == s.store.jobs[id].state
  }

  // The steps that move a terminal job: Retry, removal, or a late outcome.
  predicate Moves(s: Sys, e: Step, id: Id)
    requires id in s.store.jobs
  {
    match e
    case Retry(i, _, _) => i == id && Lifecycle.Retriable(s.store.jobs[id])
    case Delete(i) => i == id
    case Cleanup(cutoff) => Expired(s.store.jobs[id], cutoff)
    case Succeed(i, _, _) => i == id && s.store.jobs[id].state != Completed
    case Err(i, r, _, _) => i == id && FailMoves(s.store.jobs[id], r)
    case _ => false
  }

  // Does a reported failure change the job's state?
  predicate FailMoves(j: Job, r: JobResult) {
    if Lifecycle.EffectiveCategory(r) == Temporary && j.attempt < j.maxAttempts then j.state != Retrying
    else if j.attempt >= j.maxAttempts then j.state != DeadLetter
    else j.state != Failed
  }

  lemma OutcomeMoves(s: Sys, e: Step, id: Id)
    requires KeyedById(s.store) && Enabled(s, e) && (e.Succeed? || e.Err?)
    requires id in s.store.jobs
    ensures !Stays(s, e, id) <==> Moves(s, e, id)
  {
    if e.id in s.store.jobs {
      Actions.OutcomeStates(s.store, e.id, e.result, if e.Err? then e.delay else 0, e.now);
    }
  }

  lemma RemovalMoves(s: Sys, e: Step, id: Id)
    requires KeyedById(s.store) && (e.Delete? || e.Cleanup? || e.Retry?)
    requires id in s.store.jobs && s.store.jobs[id].IsTerminal()
    ensures !Stays(s, e, id) <==> Moves(s, e, id)
  {
  }

  lemma OtherMoves(s: Sys, e: Step, id: Id)
    requires KeyedById(s.store) && Enabled(s, e) && !e.Succeed? && !e.Err? && !e.Cancel?
    requires !e.Delete? && !e.Cleanup? && !e.Retry?
    requires id in s.store.jobs && s.store.jobs[id].IsTerminal()
    ensures !Stays(s, e, id) <==> Moves(s, e, id)
  {
    if e.Recover? || e.Submit? {
      TerminalWrite(s, e, id);
    }
  }

  lemma TerminalWrite(s: Sys, e: Step, id: Id)
    requires KeyedById(s.store) && Enabled(s, e) && (e.Recover? || e.Submit?)
    requires id in s.store.jobs && s.store.jobs[id].IsTerminal()
    ensures Stays(s, e, id)
  {
  }

  lemma CancelMoves(s: Sys, e: Step, id: Id)
    requires KeyedById(s.store) && e.Cancel?
    requires id in s.store.jobs && s.store.jobs[id].IsTerminal()
    ensures Stays(s, e, id)
  {
  }

  // From a terminal state a job goes on exactly by these steps, when every action on it is uninterrupted.
  lemma WhatLeavesATerminalState(s: Sys, e: Step, id: Id)
    requires KeyedById(s.store) && Enabled(s, e)
    requires id in s.store.jobs && s.store.jobs[id].IsTerminal()
    ensures !Stays(s, e, id) <==> Moves(s, e, id)
  {
    if e.Succeed? || e.Err? {
      OutcomeMoves(s, e, id);
    } else if e.Cancel? {
      CancelMoves(s, e, id);
    } else if e.Delete? || e.Cleanup? || e.Retry? {
      RemovalMoves(s, e, id);
    } else {
      OtherMoves(s, e, id);
    }
  }

  // A job that was never force-cancelled, recovered or deleted has no late outcome: its terminal
  // state is left by Retry or by removal only, crashes or not.
  lemma TerminalIsAbsorbing(steps: seq<Step>, e: Step, id: Id)
    requires Run(INIT, steps) && Enabled(After(INIT, steps), e)
    requires var s := After(INIT, steps);
             && id in s.store.jobs && s.store.jobs[id].IsTerminal()
             && s.forced[id] == 0 && s.recovered[id] == 0 && s.deleted[id] == 0
    ensures Stays(After(INIT, steps), e, id) || (e.Retry? && e.id == id) || (e.Delete? && e.id == id)
            || (e.Cleanup? && Expired(After(INIT, steps).store.jobs[id], e.cutoff))
  {
    RunKeeps(INIT, steps);
    var s := After(INIT, steps);
    assert Good(s, id);
    WhatLeavesATerminalState(s, e, id);
  }

  // Under the same hypotheses a Retrying job is moved by Cancel and by Delete only: nothing promotes it.
  lemma RetryingIsLeftAlone(steps: seq<Step>, e: Step, id: Id)
    requires Run(INIT, steps) && Enabled(After(INIT, steps), e)
    requires var s := After(INIT, steps);
             && id in s.store.jobs && s.store.jobs[id].state == Retrying
             && s.forced[id] == 0 && s.recovered[id] == 0 && s.deleted[id] == 0
    ensures !Stays(After(INIT, steps), e, id) <==> (e.Cancel? && e.id == id) || (e.Delete? && e.id == id)
  {
    RunKeeps(INIT, steps);
    var s := After(INIT, steps);
    assert Good(s, id);
    if e.Succeed? || e.Err? {
      assert e.id != id;
      OutcomeLeavesOthers(s, e, id);
    } else if e.Cancel? {
      RetryingCancel(s, e, id);
    } else {
      RetryingStep(s, e, id);
    }
  }

  lemma OutcomeLeavesOthers(s: Sys, e: Step, id: Id)
    requires KeyedById(s.store) && Enabled(s, e) && (e.Succeed? || e.Err?) && e.id != id && id in s.store.jobs
    ensures Stays(s, e, id)
  {
    if e.id in s.store.jobs {
      Actions.OutcomeStates(s.store, e.id, e.result, if e.Err? then e.delay else 0, e.now);
    }
  }

  lemma RetryingCancel(s: Sys, e: Step, id: Id)
    requires KeyedById(s.store) && e.Cancel?
    requires id in s.store.jobs && s.store.jobs[id].state == Retrying
    ensures !Stays(s, e, id) <==> e.id == id
  {
  }

  lemma RetryingStep(s: Sys, e: Step, id: Id)
    requires KeyedById(s.store) && Enabled(s, e) && !e.Succeed? && !e.Err? && !e.Cancel? && (e.Submit? ==> e.job.id != id)
    requires id in s.store.jobs && s.store.jobs[id].state == Retrying
    ensures !Stays(s, e, id) <==> e.Delete? && e.id == id
  {
    if e.Retry? || e.Recover? {
      RetryingWrite(s, e, id);
    }
  }

  lemma RetryingWrite(s: Sys, e: Step, id: Id)
    requires KeyedById(s.store) && (e.Retry? || e.Recover?)
    requires id in s.store.jobs && s.store.jobs[id].state == Retrying
    ensures Stays(s, e, id)
  {
  }

  // It is not absorbing in general: the outcome of an execution that a forced cancel cut loose
  // overwrites Cancelled.
  lemma LateOutcomeOverwritesCancelled(s: Sys, id: Id, reason: string, r: JobResult, t: Time, now: Time)
    requires KeyedById(s.store) && IsRunning(s, id) && id in s.live
    ensures var cancelled := Next(s, Cancel(id, reason, true, t));
            && cancelled.store.jobs[id].state == Cancelled
            && Enabled(cancelled, Succeed(id, r, now))
            && Next(cancelled, Succeed(id, r, now)).store.jobs[id].state == Completed
  {
  }
}
