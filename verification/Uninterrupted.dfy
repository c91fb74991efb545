// The steps of one loop or call of the protocol, when nothing comes between them: together they do what the
// methods of the scheduler and the recovery manager do (scheduler/scheduler.go, recovery/manager.go).
module Uninterrupted {
  import opened Core
  import opened JobStore
  import opened Protocol
  import Actions

  // ----- The loops -----

  // What a scheduleJobs cycle makes of the rest of its batch.
  function CycleEnd(c: Config, s: Sys): Sys
    requires |s.jobCh| <= c.batchSize
  {
    var (st, pushed) := Actions.ScheduleBatch(s.store, s.sched, c.batchSize - |s.jobCh|, s.now);
    s.(store := st, jobCh := s.jobCh + pushed, sched := [])
  }

  lemma MarkIsInTheCycle(c: Config, s: Sys)
    requires |s.jobCh| <= c.batchSize && s.sched != [] && s.sched[0].state == Pending
    ensures CycleEnd(c, Marked(s)) == CycleEnd(c, s)
  {
    assert Marked(s).sched[1..] == s.sched[1..];
  }

  lemma PushIsInTheCycle(c: Config, s: Sys)
    requires |s.jobCh| <= c.batchSize && s.sched != [] && s.sched[0].state != Pending
    ensures |Pushed(c, s).jobCh| <= c.batchSize && CycleEnd(c, Pushed(c, s)) == CycleEnd(c, s)
  {
    if |s.jobCh| < c.batchSize {
      var (end, later) := Actions.ScheduleBatch(s.store, s.sched[1..], c.batchSize - |s.jobCh| - 1, s.now);
      assert Actions.ScheduleBatch(s.store, s.sched, c.batchSize - |s.jobCh|, s.now) == (end, [s.sched[0]] + later);
      assert s.jobCh + [s.sched[0]] + later == s.jobCh + ([s.sched[0]] + later);
    }
  }

  // Every run of the schedule loop alone, to the end of its batch, is one scheduleJobs cycle.
  lemma {:induction false} ScheduleLoop(c: Config, s: Sys, events: seq<Event>)
    requires |s.jobCh| <= c.batchSize && Run(c, s, events)
    requires forall e :: e in events ==> e.SchedMark? || e.SchedPush?
    requires After(c, s, events).sched == []
    ensures After(c, s, events) == CycleEnd(c, s)
    decreases |events|
  {
    if events == [] {
      assert s.jobCh + [] == s.jobCh;
    } else {
      assert events[0] in events;
      if events[0].SchedMark? {
        MarkIsInTheCycle(c, s);
      } else {
        PushIsInTheCycle(c, s);
      }
      ScheduleLoop(c, Next(c, s, events[0]), events[1..]);
    }
  }

  // The same from its listing on.
  lemma ScheduleCycle(c: Config, s: Sys, batch: seq<Job>, loop: seq<Event>)
    requires |s.jobCh| <= c.batchSize && Enabled(c, s, SchedRead(batch)) && Run(c, Next(c, s, SchedRead(batch)), loop)
    requires forall e :: e in loop ==> e.SchedMark? || e.SchedPush?
    requires After(c, Next(c, s, SchedRead(batch)), loop).sched == []
    ensures var (st, pushed) := Actions.ScheduleBatch(s.store, batch, c.batchSize - |s.jobCh|, s.now);
            After(c, Next(c, s, SchedRead(batch)), loop) == s.(store := st, jobCh := s.jobCh + pushed)
  {
    ScheduleLoop(c, Next(c, s, SchedRead(batch)), loop);
  }

  lemma {:induction false} ReleaseLoop(c: Config, s: Sys, events: seq<Event>)
    requires Run(c, s, events) && forall e :: e in events ==> e.DelayedMark?
    requires After(c, s, events).delayed == []
    ensures After(c, s, events) == s.(store := Actions.ReleaseBatch(s.store, s.delayed, s.now), delayed := [])
    decreases |events|
  {
    if events != [] {
      assert events[0] in events;
      ReleaseLoop(c, Next(c, s, events[0]), events[1..]);
    }
  }

  lemma ReleaseCycle(c: Config, s: Sys, batch: seq<Job>, asOf: Time, loop: seq<Event>)
    requires Enabled(c, s, DelayedRead(batch, asOf)) && Run(c, Next(c, s, DelayedRead(batch, asOf)), loop)
    requires forall e :: e in loop ==> e.DelayedMark?
    requires After(c, Next(c, s, DelayedRead(batch, asOf)), loop).delayed == []
    ensures After(c, Next(c, s, DelayedRead(batch, asOf)), loop) == s.(store := Actions.ReleaseBatch(s.store, batch, s.now))
  {
    ReleaseLoop(c, Next(c, s, DelayedRead(batch, asOf)), loop);
  }

  lemma {:induction false} RecoverLoop(c: Config, s: Sys, events: seq<Event>)
    requires s.recovSince == s.now && Run(c, s, events) && forall e :: e in events ==> e.RecoverWrite?
    requires After(c, s, events).recov == []
    ensures After(c, s, events) == s.(store := Actions.RecoverBatch(s.store, s.recov, s.now).0, recov := [])
    decreases |events|
  {
    if events != [] {
      assert events[0] in events;
      RecoverLoop(c, Next(c, s, events[0]), events[1..]);
    }
  }

  lemma RecoverCycle(c: Config, s: Sys, batch: seq<Job>, asOf: Time, loop: seq<Event>)
    requires Enabled(c, s, RecoverRead(batch, asOf)) && Run(c, Next(c, s, RecoverRead(batch, asOf)), loop)
    requires forall e :: e in loop ==> e.RecoverWrite?
    requires After(c, Next(c, s, RecoverRead(batch, asOf)), loop).recov == []
    ensures After(c, Next(c, s, RecoverRead(batch, asOf)), loop)
            == s.(store := Actions.RecoverBatch(s.store, batch, s.now).0, recovSince := s.now)
  {
    RecoverLoop(c, Next(c, s, RecoverRead(batch, asOf)), loop);
  }

  // ----- The calls -----

  // A write at the moment of its read, by a call that is not Complete.
  lemma WriteAtOnce(c: Config, s: Sys, tid: Tid, call: Call, id: Id, t: Time, delay: Duration)
    requires KeyedById(s.store) && id in s.store.jobs && !call.Complete?
    requires Enabled(c, s, Write(tid, t, delay)) && s.threads[tid] == Writing(call, s.store.jobs[id], s.now)
    ensures Next(c, s, Write(tid, t, delay))
            == s.(store := s.store.(jobs := s.store.jobs[id := Edited(call, s.store.jobs[id], s.now, delay).(updatedAt := s.now)]),
                  threads := s.threads - {tid},
                  retries := if call.Retry? then s.retries + multiset{id} else s.retries)
  {
    assert s.store.jobs[id].id == id;
  }

  // A worker reports a success: Finish, Write, Record.
  lemma CompleteCall(c: Config, s: Sys, tid: Tid, result: JobResult, t: Time, delay: Duration)
    requires KeyedById(s.store) && Enabled(c, s, Finish(tid, result)) && result.success && result.jobId in s.store.jobs
    requires Enabled(c, Next(c, s, Finish(tid, result)), Write(tid, t, delay))
    ensures var written := Next(c, Next(c, s, Finish(tid, result)), Write(tid, t, delay));
            && Enabled(c, written, Record(tid))
            && Next(c, written, Record(tid))
               == s.(store := Actions.Complete(s.store, result.jobId, result, s.now).0, threads := s.threads - {tid})
  {
    var id, job := result.jobId, s.store.jobs[result.jobId];
    assert job.id == id;
    var read := s.(threads := s.threads[tid := Writing(Complete(result), job, s.now)]);
    assert Next(c, s, Finish(tid, result)) == read;
    var st := Update(s.store, Edited(Complete(result), job, s.now, delay), s.now).0;
    var written := s.(store := st, threads := read.threads[tid := Recording(result)]);
    assert Next(c, read, Write(tid, t, delay)) == written;
    assert written.threads - {tid} == s.threads - {tid};
  }

  // A worker reports a failure: Finish, Save, Write.
  lemma FailSaves(c: Config, s: Sys, tid: Tid, result: JobResult)
    requires KeyedById(s.store) && Enabled(c, s, Finish(tid, result)) && !result.success && result.jobId in s.store.jobs
    requires Enabled(c, Next(c, s, Finish(tid, result)), Save(tid))
    ensures Next(c, Next(c, s, Finish(tid, result)), Save(tid))
            == s.(store := SaveResult(s.store, result),
                  threads := s.threads[tid := Writing(Fail(result), s.store.jobs[result.jobId], s.now)])
  {
    var job := s.store.jobs[result.jobId];
    assert job.id == result.jobId;
    var read := s.(threads := s.threads[tid := Saving(result, job, s.now)]);
    assert Next(c, s, Finish(tid, result)) == read;
    assert read.threads[tid := Writing(Fail(result), job, s.now)] == s.threads[tid := Writing(Fail(result), job, s.now)];
  }

  lemma FailCall(c: Config, s: Sys, tid: Tid, result: JobResult, t: Time, delay: Duration)
    requires KeyedById(s.store) && Enabled(c, s, Finish(tid, result)) && !result.success && result.jobId in s.store.jobs
    requires Enabled(c, Next(c, s, Finish(tid, result)), Save(tid))
    requires Enabled(c, Next(c, Next(c, s, Finish(tid, result)), Save(tid)), Write(tid, t, delay))
    ensures Next(c, Next(c, Next(c, s, Finish(tid, result)), Save(tid)), Write(tid, t, delay))
            == s.(store := Actions.Fail(s.store, result.jobId, result, delay, s.now).0, threads := s.threads - {tid})
  {
    FailSaves(c, s, tid, result);
    var saved := Next(c, Next(c, s, Finish(tid, result)), Save(tid));
    WriteAtOnce(c, saved, tid, Fail(result), result.jobId, t, delay);
    assert saved.threads - {tid} == s.threads - {tid};
  }

  // A Cancel that is refused, ignored or finds no job ends with its read; otherwise it writes.
  lemma CancelCall(c: Config, s: Sys, tid: Tid, id: Id, reason: string, force: bool, t: Time, delay: Duration)
    requires KeyedById(s.store) && Enabled(c, s, Ask(tid, id, Cancel(reason, force)))
    ensures var asked := Next(c, s, Ask(tid, id, Cancel(reason, force)));
            var end := s.(store := Actions.Cancel(s.store, id, reason, force, s.now).0);
            if tid !in asked.threads then asked == end
            else Enabled(c, asked, Write(tid, t, delay)) ==> Next(c, asked, Write(tid, t, delay)) == end
  {
    AskedOnce(c, s, tid, id, Cancel(reason, force), t, delay);
  }

  // And so a Retry, which is counted when it writes.
  lemma RetryCall(c: Config, s: Sys, tid: Tid, id: Id, reset: bool, t: Time, delay: Duration)
    requires KeyedById(s.store) && Enabled(c, s, Ask(tid, id, Retry(reset)))
    ensures var asked := Next(c, s, Ask(tid, id, Retry(reset)));
            var st := Actions.Retry(s.store, id, reset, s.now).0;
            if tid !in asked.threads then asked == s && st == s.store
            else Enabled(c, asked, Write(tid, t, delay)) ==>
                   Next(c, asked, Write(tid, t, delay)) == s.(store := st, retries := s.retries + multiset{id})
  {
    AskedOnce(c, s, tid, id, Retry(reset), t, delay);
  }

  // The read of a Cancel or a Retry, and its write.
  lemma AskedOnce(c: Config, s: Sys, tid: Tid, id: Id, call: Call, t: Time, delay: Duration)
    requires KeyedById(s.store) && Enabled(c, s, Ask(tid, id, call))
    ensures var asked := Next(c, s, Ask(tid, id, call));
            if tid !in asked.threads then asked == s && !(id in s.store.jobs && Accepts(call, s.store.jobs[id]))
            else
              && id in s.store.jobs && s.store.jobs[id].id == id && Accepts(call, s.store.jobs[id])
              && (Enabled(c, asked, Write(tid, t, delay)) ==>
                    Next(c, asked, Write(tid, t, delay))
                    == s.(store := s.store.(jobs := s.store.jobs[id := Edited(call, s.store.jobs[id], s.now, delay).(updatedAt := s.now)]),
                          retries := if call.Retry? then s.retries + multiset{id} else s.retries))
  {
    var asked := Next(c, s, Ask(tid, id, call));
    if tid in asked.threads && Enabled(c, asked, Write(tid, t, delay)) {
      WriteAtOnce(c, asked, tid, call, id, t, delay);
      assert asked.threads - {tid} == s.threads;
    }
  }
}
