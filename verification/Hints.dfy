// The two channels are only hints: whatever they drop, duplicate, delay or keep from the past, the
// stored jobs behave as if a worker could claim any stored Pending or Scheduled job at any time.
module Hints {
  import opened Core
  import opened JobStore
  import opened Protocol

  // ----- The system without channels -----

  datatype HintFreeEvent =
    | Same(e: Event)              // a step that uses no channel
    | ClaimAny(tid: Tid, id: Id)  // a worker claims any claimable job
    | SkipHead                    // scheduleJobs goes on to the next job of its batch
    | SkipRest                    // scheduleJobs stops early

  predicate UsesChannel(e: Event) {
    e.SchedPush? || e.Fetch? || e.Forward? || e.Receive? || e.ClaimEntry?
  }

  ghost predicate HintFreeEnabled(c: Config, a: Sys, h: HintFreeEvent) {
    match h
    case Same(e) => !UsesChannel(e) && Enabled(c, a, e)
    case ClaimAny(tid, id) => tid !in a.threads && Claimable(a.store.jobs, id)
    case SkipHead => a.sched != []
    case SkipRest => true
  }

  function HintFreeNext(c: Config, a: Sys, h: HintFreeEvent): Sys
    requires HintFreeEnabled(c, a, h)
  {
    match h
    case Same(e) => Next(c, a, e)
    case ClaimAny(tid, id) => Claimed(c, a, tid, id)
    case SkipHead => a.(sched := a.sched[1..])
    case SkipRest => a.(sched := [])
  }

  ghost predicate HintFreeRun(c: Config, a: Sys, hs: seq<HintFreeEvent>)
    decreases |hs|
  {
    hs == [] || (HintFreeEnabled(c, a, hs[0]) && HintFreeRun(c, HintFreeNext(c, a, hs[0]), hs[1..]))
  }

  ghost function HintFreeAfter(c: Config, a: Sys, hs: seq<HintFreeEvent>): Sys
    requires HintFreeRun(c, a, hs)
    decreases |hs|
  {
    if hs == [] then a else HintFreeAfter(c, HintFreeNext(c, a, hs[0]), hs[1..])
  }

  // ----- Forgetting the channels -----

  function Busy(threads: map<Tid, Thread>): map<Tid, Thread> {
    map tid | tid in threads && !threads[tid].Holding? :: threads[tid]
  }

  function Forget(s: Sys): Sys {
    s.(jobCh := [], fetched := None, poolCh := [], threads := Busy(s.threads))
  }

  // The hint-free step, if any, that a step stands for.
  ghost function Image(c: Config, s: Sys, e: Event): seq<HintFreeEvent>
    requires Enabled(c, s, e)
  {
    match e
    case SchedPush => if |s.jobCh| < c.batchSize then [SkipHead] else [SkipRest]
    case Fetch => []
    case Forward => []
    case Receive(_) => []
    case ClaimEntry(tid) =>
      var id := s.threads[tid].entry.id;
      if Claimable(s.store.jobs, id) then [ClaimAny(tid, id)] else []
    case _ => [Same(e)]
  }

  lemma BusyAfter(threads: map<Tid, Thread>, tid: Tid, th: Thread)
    ensures Busy(threads - {tid}) == Busy(threads) - {tid}
    ensures !th.Holding? ==> Busy(threads[tid := th]) == Busy(threads)[tid := th]
    ensures th.Holding? && tid !in threads ==> Busy(threads[tid := th]) == Busy(threads)
    ensures tid in threads && threads[tid].Holding? ==> Busy(threads - {tid}) == Busy(threads)
  {
  }

  // A step of a busy thread or of a fresh one looks the same without the channels.
  lemma SameThreadStep(c: Config, s: Sys, e: Event)
    requires Enabled(c, s, e)
    requires e.Checkpoint? || e.Finish? || e.Ask? || e.Save? || e.Record?
    ensures Enabled(c, Forget(s), e) && Next(c, Forget(s), e) == Forget(Next(c, s, e))
  {
    var end := Next(c, s, e);
    BusyAfter(s.threads, e.tid, if e.tid in end.threads then end.threads[e.tid] else Executing(0));
  }

  lemma SameWriteStep(c: Config, s: Sys, e: Event)
    requires Enabled(c, s, e) && e.Write?
    ensures Enabled(c, Forget(s), e) && Next(c, Forget(s), e) == Forget(Next(c, s, e))
  {
    var th := s.threads[e.tid];
    BusyAfter(s.threads, e.tid, if th.call.Complete? then Recording(th.call.result) else th);
  }

  lemma SameOtherStep(c: Config, s: Sys, e: Event)
    requires Enabled(c, s, e) && !UsesChannel(e)
    requires !(e.Checkpoint? || e.Finish? || e.Ask? || e.Save? || e.Write? || e.Record?)
    ensures Enabled(c, Forget(s), e) && Next(c, Forget(s), e) == Forget(Next(c, s, e))
  {
    assert e.Crash? ==> Busy(map[]) == map[];
  }

  // Receiving is invisible, and so is a claim that fails: it changes no stored job.
  lemma ChannelStep(c: Config, s: Sys, e: Event)
    requires Enabled(c, s, e) && UsesChannel(e)
    ensures var hs := Image(c, s, e);
            && HintFreeRun(c, Forget(s), hs)
            && HintFreeAfter(c, Forget(s), hs) == Forget(Next(c, s, e))
    ensures Image(c, s, e) == [] ==> Next(c, s, e).store == s.store
  {
    match e {
      case Receive(tid) => BusyAfter(s.threads, tid, Holding(s.poolCh[0]));
      case ClaimEntry(tid) => BusyAfter(s.threads, tid, Executing(s.threads[tid].entry.id));
      case _ =>
    }
    var hs := Image(c, s, e);
    if hs != [] {
      assert hs[1..] == [];
    }
  }

  lemma StepIsSimulated(c: Config, s: Sys, e: Event)
    requires Enabled(c, s, e)
    ensures var hs := Image(c, s, e);
            && HintFreeRun(c, Forget(s), hs)
            && HintFreeAfter(c, Forget(s), hs) == Forget(Next(c, s, e))
  {
    if UsesChannel(e) {
      ChannelStep(c, s, e);
    } else {
      if e.Write? {
        SameWriteStep(c, s, e);
      } else if e.Checkpoint? || e.Finish? || e.Ask? || e.Save? || e.Record? {
        SameThreadStep(c, s, e);
      } else {
        SameOtherStep(c, s, e);
      }
      assert Image(c, s, e) == [Same(e)] && [Same(e)][1..] == [];
    }
  }

  lemma {:induction false} RunsCompose(c: Config, a: Sys, hs: seq<HintFreeEvent>, more: seq<HintFreeEvent>)
    requires HintFreeRun(c, a, hs) && HintFreeRun(c, HintFreeAfter(c, a, hs), more)
    ensures HintFreeRun(c, a, hs + more)
    ensures HintFreeAfter(c, a, hs + more) == HintFreeAfter(c, HintFreeAfter(c, a, hs), more)
    decreases |hs|
  {
    if hs == [] {
      assert hs + more == more;
    } else {
      RunsCompose(c, HintFreeNext(c, a, hs[0]), hs[1..], more);
      assert (hs + more)[1..] == hs[1..] + more;
    }
  }

  // Every run of the protocol, seen without its channels, is a run of the hint-free system.
  lemma {:induction false} ChannelsAreOnlyHints(c: Config, s: Sys, events: seq<Event>) returns (hs: seq<HintFreeEvent>)
    requires Run(c, s, events)
    ensures HintFreeRun(c, Forget(s), hs)
    ensures HintFreeAfter(c, Forget(s), hs) == Forget(After(c, s, events))
    decreases |events|
  {
    hs := [];
    if events != [] {
      var first := Image(c, s, events[0]);
      StepIsSimulated(c, s, events[0]);
      var rest := ChannelsAreOnlyHints(c, Next(c, s, events[0]), events[1..]);
      RunsCompose(c, Forget(s), first, rest);
      hs := first + rest;
    }
  }
}
