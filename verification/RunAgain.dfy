// Exactly when a job can still be run without a further Retry.
module RunAgain {
  import opened Core
  import opened JobStore
  import opened Protocol
  import opened Runs
  import EarlyClaims
  import LateWrites
  import ProtocolClaims
  import ProtocolRecords
  import Walks

  // A worker may claim it, it waits for its time, or a scheduler loop will set it to Scheduled.
  ghost predicate Runnable(s: Sys, id: Id) {
    && id in s.store.jobs
    && (Claimable(s.store.jobs, id) || s.store.jobs[id].state == Delayed
        || id in ProtocolClaims.MarkIds(s.sched) || id in IdsOf(s.delayed))
  }

  // ----- A job that is not stays so -----

  lemma UnclaimedStep(c: Config, s: Sys, e: Event, id: Id)
    requires Enabled(c, s, e) && !Claimable(s.store.jobs, id)
    ensures Next(c, s, e).claims[id] == s.claims[id]
  {
  }

  lemma RetriesOnlyGrow(c: Config, s: Sys, e: Event, id: Id)
    requires Enabled(c, s, e)
    ensures Next(c, s, e).retries[id] >= s.retries[id] && s.created.Keys <= Next(c, s, e).created.Keys
  {
  }

  // A write that is not a Retry's leaves the job neither claimable nor Delayed.
  lemma ActedOn(c: Config, s: Sys, e: Event, id: Id)
    requires LateWrites.Tidy(s) && id in s.store.jobs && LateWrites.InNoQueue(s, id) && Enabled(c, s, e)
    requires LateWrites.ActsOn(s, e, id) && Next(c, s, e).retries[id] == s.retries[id]
    ensures LateWrites.Unlisted(Next(c, s, e), id)
  {
    LateWrites.WriteLeaves(c, s, e, id);
  }

  lemma StoredStep(c: Config, s: Sys, e: Event, id: Id)
    requires LateWrites.Tidy(s) && id in s.store.jobs && !Runnable(s, id) && Enabled(c, s, e)
    requires Next(c, s, e).retries[id] == s.retries[id]
    ensures LateWrites.Unlisted(Next(c, s, e), id) && LateWrites.InNoQueue(Next(c, s, e), id)
  {
    LateWrites.QueueStays(c, s, e, id);
    if LateWrites.ActsOn(s, e, id) {
      ActedOn(c, s, e, id);
    } else {
      LateWrites.OthersLeaveAlone(c, s, e, id);
    }
  }

  lemma StepStays(c: Config, s: Sys, e: Event, id: Id)
    requires LateWrites.Tidy(s) && id in s.created && !Runnable(s, id) && Enabled(c, s, e)
    requires Next(c, s, e).retries[id] == s.retries[id]
    ensures !Runnable(Next(c, s, e), id) && Next(c, s, e).claims[id] == s.claims[id]
  {
    UnclaimedStep(c, s, e, id);
    if id in s.store.jobs {
      StoredStep(c, s, e, id);
    } else {
      EarlyClaims.StaysAway(c, s, e, id);
    }
  }

  lemma {:induction false} RetriesGrow(c: Config, s: Sys, events: seq<Event>, id: Id)
    requires Run(c, s, events)
    ensures After(c, s, events).retries[id] >= s.retries[id]
    decreases |events|
  {
    if events != [] {
      RetriesOnlyGrow(c, s, events[0], id);
      RetriesGrow(c, Next(c, s, events[0]), events[1..], id);
    }
  }

  lemma {:induction false} RunStays(c: Config, s: Sys, events: seq<Event>, id: Id)
    requires ProtocolRecords.Inv(s) && id in s.created && !Runnable(s, id)
    requires Run(c, s, events) && After(c, s, events).retries[id] == s.retries[id]
    ensures !Runnable(After(c, s, events), id) && After(c, s, events).claims[id] == s.claims[id]
    decreases |events|
  {
    if events != [] {
      var next := Next(c, s, events[0]);
      LateWrites.InvIsTidy(s);
      RetriesOnlyGrow(c, s, events[0], id);
      RetriesGrow(c, next, events[1..], id);
      StepStays(c, s, events[0], id);
      ProtocolRecords.StepKeeps(c, s, events[0]);
      RunStays(c, next, events[1..], id);
    }
  }

  // ----- One that is gets claimed -----

  // The scheduler loops set the job to Scheduled, if it is not claimable yet.
  lemma MadeClaimable(c: Config, s: Sys, id: Id) returns (t: Sys)
    requires KeyedById(s.store) && Runnable(s, id)
    ensures Reaches(c, Walks.OnItsOwn, s, t) && KeyedById(t.store) && Claimable(t.store.jobs, id)
    ensures t.claims == s.claims && t.retries == s.retries
  {
    Here(c, Walks.OnItsOwn, s);
    if Claimable(s.store.jobs, id) {
      t := s;
    } else if id in IdsOf(s.delayed) {
      t := Walks.ReleaseCarriedOut(c, s, s, id);
    } else if id in ProtocolClaims.MarkIds(s.sched) {
      t := Walks.MarkCarriedOut(c, s, s, id);
    } else {
      t := Walks.DueCarriedOut(c, s, s, id);
    }
  }

  lemma RunnableRuns(c: Config, s: Sys, id: Id) returns (later: seq<Event>)
    requires KeyedById(s.store) && Runnable(s, id)
    ensures Run(c, s, later) && forall e :: e in later ==> Walks.OnItsOwn(e)
    ensures After(c, s, later).retries == s.retries && After(c, s, later).claims == s.claims + multiset{id}
  {
    var t1 := MadeClaimable(c, s, id);
    var t := Walks.ClaimCarriedOut(c, s, t1, id);
    later :| Run(c, s, later) && After(c, s, later) == t && forall e :: e in later ==> Walks.OnItsOwn(e);
  }

  // ----- The results -----

  ghost predicate MayRunAgain(c: Config, s: Sys, id: Id) {
    exists later :: Run(c, s, later) && After(c, s, later).retries[id] == s.retries[id]
                    && After(c, s, later).claims[id] > s.claims[id]
  }

  // From any reachable state some run that writes no Retry to the job claims it, if and only if it is stored
  // and claimable, Delayed, or in the hand of a scheduler loop. Then the loops and the workers do it alone.
  lemma RunsAgainIff(c: Config, before: seq<Event>, id: Id)
    requires Run(c, INIT, before) && id in After(c, INIT, before).created
    ensures MayRunAgain(c, After(c, INIT, before), id) <==> Runnable(After(c, INIT, before), id)
    ensures Runnable(After(c, INIT, before), id) ==>
              var s := After(c, INIT, before);
              exists later :: Run(c, s, later) && After(c, s, later).retries == s.retries
                              && After(c, s, later).claims == s.claims + multiset{id}
                              && forall e :: e in later ==> Walks.OnItsOwn(e)
  {
    var s := After(c, INIT, before);
    ProtocolRecords.RunKeeps(c, INIT, before);
    if Runnable(s, id) {
      var later := RunnableRuns(c, s, id);
    } else {
      forall later | Run(c, s, later) && After(c, s, later).retries[id] == s.retries[id]
        ensures After(c, s, later).claims[id] == s.claims[id]
      {
        RunStays(c, s, later, id);
      }
    }
  }

  // So a job that waits for a retry or has ended, and that no scheduler loop has in hand, is neither made
  // claimable nor claimed until Retry writes it, whatever else is called and however often it was retried.
  lemma NoOneRunsIt(c: Config, before: seq<Event>, later: seq<Event>, id: Id)
    requires Run(c, INIT, before)
    requires var s := After(c, INIT, before);
             && id in s.store.jobs && (s.store.jobs[id].state == Retrying || s.store.jobs[id].IsTerminal())
             && LateWrites.InNoQueue(s, id)
             && Run(c, s, later) && After(c, s, later).retries[id] == s.retries[id]
    ensures var s, end := After(c, INIT, before), After(c, After(c, INIT, before), later);
            end.claims[id] == s.claims[id] && !Claimable(end.store.jobs, id)
  {
    ProtocolRecords.RunKeeps(c, INIT, before);
    LateWrites.ReachedIsTidy(c, before);
    RunStays(c, After(c, INIT, before), later, id);
  }
}
