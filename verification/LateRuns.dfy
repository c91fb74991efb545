// Runs in which a late write revives a job: inputs on which natural promises fail.
module LateRuns {
  import opened Core
  import opened JobStore
  import opened Protocol
  import opened Runs
  import opened TightBound
  import Hints

  // Submissions, the schedule loop, workers and unforced cancels: nothing else.
  predicate Gentle(e: Event) {
    match e
    case Tick(_) | DelayedRead(_, _) | DelayedMark | RecoverRead(_, _) | RecoverWrite(_) => false
    case Remove(_) | Sweep(_) | Crash => false
    case Ask(_, _, call) => call.Cancel? && !call.force
    case _ => true
  }

  lemma ReadByTheLoop() returns (t: Sys)
    ensures Reaches(SETUP, Gentle, INIT, t) && Holds(t, Pending) && Calm(t)
    ensures |t.sched| == 1 && t.sched[0].id == 0 && t.sched[0].state == Pending
    ensures t.jobCh == [] && t.threads == map[] && t.claims == multiset{} && t.now == 1
  {
    Here(SETUP, Gentle, INIT);
    var t1 := Go(SETUP, Gentle, INIT, INIT, Submit(JOB));
    assert Holds(t1, Pending);
    OnlyListing(t1, Pending);
    t := Go(SETUP, Gentle, INIT, t1, SchedRead([t1.store.jobs[0]]));
  }

  // A cancel comes between the schedule loop's read and its mark, and is written ...
  lemma CancelledInTime() returns (t: Sys)
    ensures Reaches(SETUP, Gentle, INIT, t) && Holds(t, Cancelled) && Calm(t)
    ensures |t.sched| == 1 && t.sched[0].id == 0 && t.sched[0].state == Pending
    ensures t.jobCh == [] && t.threads == map[] && t.claims == multiset{}
  {
    var t2 := ReadByTheLoop();
    var t3 := Go(SETUP, Gentle, INIT, t2, Ask(0, 0, Cancel("no longer needed", false)));
    t := Go(SETUP, Gentle, INIT, t3, Write(0, t3.now, 0));
    assert t.threads == map[];
  }

  // ... then the loop marks the cancelled job and pushes it.
  lemma MarkedAllTheSame(start: Sys, s: Sys) returns (t: Sys)
    requires Reaches(SETUP, Gentle, start, s) && Holds(s, Cancelled) && Calm(s) && s.jobCh == []
    requires |s.sched| == 1 && s.sched[0].id == 0 && s.sched[0].state == Pending
    ensures Reaches(SETUP, Gentle, start, t) && Holds(t, Scheduled) && Calm(t) && |t.jobCh| == 1
    ensures t.threads == s.threads && t.claims == s.claims
  {
    var t1 := Go(SETUP, Gentle, start, s, SchedMark);
    t := Go(SETUP, Gentle, start, t1, SchedPush);
  }

  // A cancelled job may run: after Cancel has reported success, with no forced cancel, retry, recovery,
  // removal or crash anywhere.
  lemma CancelledJobRuns() returns (cancelled: Sys, end: Sys)
    ensures Reaches(SETUP, Gentle, INIT, cancelled) && Holds(cancelled, Cancelled) && cancelled.claims[0] == 0
    ensures Reaches(SETUP, Gentle, cancelled, end) && Holds(end, Running) && end.claims[0] == 1
  {
    cancelled := CancelledInTime();
    Here(SETUP, Gentle, cancelled);
    var t1 := MarkedAllTheSame(cancelled, cancelled);
    var t2 := Go(SETUP, Gentle, cancelled, t1, Fetch);
    var t3 := Go(SETUP, Gentle, cancelled, t2, Forward);
    var t4 := Go(SETUP, Gentle, cancelled, t3, Receive(0));
    end := Go(SETUP, Gentle, cancelled, t4, ClaimEntry(0));
  }

  const BUSY := JobResult(0, false, [], "busy", Temporary, 0, 1)

  lemma Granted(s: Sys, t1: Sys)
    requires Holds(s, Running) && s.store.jobs[0].attempt == 1 && 0 in s.threads
    requires t1 == s.(store := SaveResult(s.store, BUSY),
                      threads := s.threads[0 := Writing(Fail(BUSY), s.store.jobs[0], s.now)])
    ensures var t := Written(t1, 0, t1.threads[0], s.now, 0);
            Holds(t, Retrying) && t.sched == s.sched && t.retries == s.retries
  {
  }

  // The handler asks for a retry, and Fail grants it.
  lemma Postponed(s: Sys, h: multiset<Id>) returns (t: Sys)
    requires Comes(INIT, s, h) && Holds(s, Running) && s.store.jobs[0].attempt == 1
    requires 0 in s.threads && s.threads[0] == Executing(0)
    ensures Comes(INIT, t, h) && Holds(t, Retrying) && t.sched == s.sched && t.retries == s.retries
  {
    var t1 := Report(INIT, s, h, 0, BUSY);
    t := On(INIT, t1, h, Write(0, s.now, 0));
    Granted(s, t1);
  }

  // Retry has made the job Pending, the schedule loop has read it so, and an old entry is claimed.
  lemma ReadThenClaimed() returns (t: Sys)
    ensures Comes(INIT, t, multiset{0}) && Holds(t, Running) && t.store.jobs[0].attempt == 1 && t.retries[0] == 1
    ensures |t.sched| == 1 && t.sched[0].id == 0 && t.sched[0].state == Pending && t.threads == map[0 := Executing(0)]
  {
    var h := multiset{0};
    var t1 := FirstClaim();
    EntryInHand(t1);
    var t2 := Reopen(INIT, t1, multiset{});
    assert multiset{} + h == h;
    OnlyListing(t2, Pending);
    var t3 := On(INIT, t2, h, SchedRead([t2.store.jobs[0]]));
    t := TakeAndClaim(INIT, t3, h, 0, Pending);
  }

  // A Retrying job may be promoted after all, but by accident: the execution fails before the loop's mark comes.
  lemma RetryingJobIsMarked() returns (waiting: Sys, end: Sys)
    ensures Reaches(SETUP, Plain, INIT, waiting) && Holds(waiting, Retrying) && waiting.retries[0] == 1
    ensures Enabled(SETUP, waiting, SchedMark) && end == Next(SETUP, waiting, SchedMark) && Holds(end, Scheduled)
  {
    var t1 := ReadThenClaimed();
    waiting := Postponed(t1, multiset{0});
    ComesIsReaches(INIT, waiting, multiset{0});
    end := Next(SETUP, waiting, SchedMark);
  }

  lemma GoFree(start: Sys, hs: seq<Hints.HintFreeEvent>, h: Hints.HintFreeEvent) returns (more: seq<Hints.HintFreeEvent>)
    requires Hints.HintFreeRun(SETUP, start, hs)
    requires Hints.HintFreeEnabled(SETUP, Hints.HintFreeAfter(SETUP, start, hs), h)
    ensures Hints.HintFreeRun(SETUP, start, more)
    ensures Hints.HintFreeAfter(SETUP, start, more) == Hints.HintFreeNext(SETUP, Hints.HintFreeAfter(SETUP, start, hs), h)
  {
    more := hs + [h];
    var mid := Hints.HintFreeAfter(SETUP, start, hs);
    assert [h][1..] == [] && Hints.HintFreeRun(SETUP, Hints.HintFreeNext(SETUP, mid, h), []);
    Hints.RunsCompose(SETUP, start, hs, [h]);
  }

  lemma HintFreeRead() returns (hs: seq<Hints.HintFreeEvent>)
    ensures Hints.HintFreeRun(SETUP, INIT, hs)
    ensures var t := Hints.HintFreeAfter(SETUP, INIT, hs);
            && Holds(t, Pending) && t.threads == map[] && t.claims == multiset{} && t.retries == multiset{}
            && |t.sched| == 1 && t.sched[0].id == 0 && t.sched[0].state == Pending
  {
    hs := [];
    assert Hints.HintFreeRun(SETUP, INIT, hs) && Hints.HintFreeAfter(SETUP, INIT, hs) == INIT;
    hs := GoFree(INIT, hs, Hints.Same(Submit(JOB)));
    var t := Hints.HintFreeAfter(SETUP, INIT, hs);
    assert Holds(t, Pending);
    OnlyListing(t, Pending);
    hs := GoFree(INIT, hs, Hints.Same(SchedRead([t.store.jobs[0]])));
  }

  // Without the channels a job may be claimed twice with no Retry at all: the bound on claims rests on a
  // claim needing an entry in hand.
  lemma HintFreeClaimsTwice() returns (hs: seq<Hints.HintFreeEvent>)
    ensures Hints.HintFreeRun(SETUP, INIT, hs)
    ensures var end := Hints.HintFreeAfter(SETUP, INIT, hs); end.claims[0] == 2 && end.retries[0] == 0
  {
    hs := HintFreeRead();
    hs := GoFree(INIT, hs, Hints.ClaimAny(0, 0));
    hs := GoFree(INIT, hs, Hints.Same(SchedMark));
    hs := GoFree(INIT, hs, Hints.ClaimAny(1, 0));
  }
}
