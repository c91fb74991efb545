// What submitJob answers when the store changes between its Create and its lookup (api/handlers.go).
module SubmissionRace {
  import opened Core
  import opened JobStore
  import opened Protocol
  import ProtocolRecords
  import S = Scheduler

  ghost predicate Held(st: Store, key: string) {
    exists holder :: S.Holds(st.jobs, holder, key)
  }

  // The id is new, so the key is what Create refuses.
  lemma RefusedForTheKey(s: Sys, job: Job)
    requires ProtocolRecords.Inv(s) && job.id !in s.created
    ensures Create(s.store, job).1 != Done <==> Held(s.store, job.idempotencyKey)
  {
    assert job.id in s.store.jobs ==> ProtocolRecords.GoodJob(s, job.id);
    S.HolderIsIndexed(s.store, job.idempotencyKey);
  }

  lemma LookedUp(st: Store, key: string)
    requires WellFormed(st)
    ensures S.Refused(st, key) == S.Conflict <==> !Held(st, key)
    ensures forall holder :: S.Holds(st.jobs, holder, key) ==> S.Refused(st, key) == S.AlreadyHeld(st.jobs[holder])
  {
    S.HolderIsIndexed(st, key);
  }

  // Whatever happens between the two calls: a submission is refused exactly if its key was held at the
  // first, and then answered with the job that holds it at the second, or with a bare conflict exactly if
  // none does.
  lemma AnswerOfARefusal(c: Config, before: seq<Event>, job: Job, later: seq<Event>)
    requires Run(c, INIT, before) && Enabled(c, After(c, INIT, before), Submit(job))
    requires Run(c, Next(c, After(c, INIT, before), Submit(job)), later)
    ensures var s := After(c, INIT, before);
            var t, key := After(c, Next(c, s, Submit(job)), later).store, job.idempotencyKey;
            && (Create(s.store, job).1 != Done <==> Held(s.store, key))
            && (S.Refused(t, key) == S.Conflict <==> !Held(t, key))
            && (forall holder :: S.Holds(t.jobs, holder, key) ==> S.Refused(t, key) == S.AlreadyHeld(t.jobs[holder]))
  {
    var s := After(c, INIT, before);
    ProtocolRecords.RunKeeps(c, INIT, before);
    ProtocolRecords.StepKeeps(c, s, Submit(job));
    ProtocolRecords.RunKeeps(c, Next(c, s, Submit(job)), later);
    RefusedForTheKey(s, job);
    LookedUp(After(c, Next(c, s, Submit(job)), later).store, job.idempotencyKey);
  }

  const FIRST := DefaultJob(0, "example", 1).(idempotencyKey := "once")
  const SECOND_TRY := DefaultJob(1, "example", 1).(idempotencyKey := "once")

  // A conflict with nobody: the holder is removed in between.
  lemma HolderRemoved(c: Config)
    ensures Run(c, INIT, [Submit(FIRST), Submit(SECOND_TRY), Remove(0)])
    ensures var s, t := After(c, INIT, [Submit(FIRST)]), After(c, INIT, [Submit(FIRST), Submit(SECOND_TRY), Remove(0)]);
            && Create(s.store, SECOND_TRY).1 == AlreadyExists
            && S.Refused(s.store, "once") == S.AlreadyHeld(FIRST) && S.Refused(t.store, "once") == S.Conflict
  {
    var s := Next(c, INIT, Submit(FIRST));
    assert [Submit(FIRST)][1..] == [];
    assert Run(c, s, []) && After(c, s, []) == s;
    assert [Submit(FIRST), Submit(SECOND_TRY), Remove(0)][1..] == [Submit(SECOND_TRY), Remove(0)];
    assert [Submit(SECOND_TRY), Remove(0)][1..] == [Remove(0)] && [Remove(0)][1..] == [];
    var t := Next(c, s, Submit(SECOND_TRY));
    assert t == s;
    var u := Next(c, t, Remove(0));
    assert Run(c, u, []) && After(c, u, []) == u;
    assert Run(c, t, [Remove(0)]) && After(c, t, [Remove(0)]) == u;
  }
}
