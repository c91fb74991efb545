// How often a job can still be claimed: an accounting of claimable states, of the pending "set to
// Scheduled" writes of the two scheduler loops, and of the retries that found an entry in hand.
module ClaimBudget {
  import opened Core

  // What the accounting needs to know of a system state.
  datatype View = View(
    states: map<Id, JobState>,  // stored jobs
    marks: set<Id>,             // jobs the schedule loop read as Pending and will set to Scheduled
    due: set<Id>,               // jobs the delayed loop will set to Scheduled
    hints: set<Id>,             // jobs with an entry in a channel, in a hand-over, or about to be pushed
    created: set<Id>,
    claims: multiset<Id>,
    retries: multiset<Id>,
    hinted: multiset<Id>)       // the retries that landed while the job was among the hints

  // The claims still possible without a further Retry.
  function Budget(v: View, id: Id): nat {
    if id !in v.states then 0
    else
      var writes := One(id in v.marks) + One(id in v.due);
      match v.states[id]
      case Delayed => 1
      case Pending => 1 + One(id in v.hints) + One(id in v.due)
      case Scheduled => 1 + writes
      case _ => writes
  }

  ghost predicate Within(v: View, id: Id) {
    v.claims[id] + Budget(v, id) <= 1 + v.retries[id] + v.hinted[id]
  }

  ghost predicate Inv(v: View) {
    && v.states.Keys <= v.created && v.marks <= v.created && v.due <= v.created && v.hints <= v.created
    && (forall id :: id in v.claims || id in v.retries ==> id in v.created)
    && (forall id :: id in v.states && v.states[id] == Pending && v.retries[id] == 0 ==>
          id !in v.hints && id !in v.due)
    && (forall id :: id in v.states && v.states[id] == Delayed ==> id !in v.marks)
    && (forall id :: v.hinted[id] <= v.retries[id])
    && (forall id :: id in v.created ==> Within(v, id))
  }

  // ----- The moves -----

  // Jobs leave the store, entries and pending writes are dropped.
  ghost predicate Drops(v: View, w: View) {
    && w.states.Keys <= v.states.Keys && (forall id :: id in w.states ==> w.states[id] == v.states[id])
    && w.marks <= v.marks && w.due <= v.due && w.hints <= v.hints
    && w.created == v.created && w.claims == v.claims && w.retries == v.retries && w.hinted == v.hinted
  }

  // The idle schedule loop reads claimable jobs: Pending ones to mark, Scheduled ones to push.
  ghost predicate ReadsPending(v: View, w: View) {
    && v.marks == {}
    && (forall id :: id in w.marks ==> id in v.states && v.states[id] == Pending)
    && (forall id :: id in w.hints && id !in v.hints ==> id in v.states && v.states[id] == Scheduled)
    && w == v.(marks := w.marks, hints := w.hints)
  }

  ghost predicate ReadsDue(v: View, w: View) {
    && v.due == {}
    && (forall id :: id in w.due ==> id in v.states && v.states[id] == Delayed)
    && w == v.(due := w.due)
  }

  function Put(states: map<Id, JobState>, id: Id, state: JobState): map<Id, JobState> {
    if id in states then states[id := state] else states
  }

  ghost predicate Marks(v: View, id: Id, w: View) {
    id in v.marks && w == v.(states := Put(v.states, id, Scheduled), marks := v.marks - {id}, hints := v.hints + {id})
  }

  ghost predicate Releases(v: View, id: Id, w: View) {
    id in v.due && w == v.(states := Put(v.states, id, Scheduled), due := v.due - {id})
  }

  ghost predicate Claims(v: View, id: Id, w: View) {
    && id in v.hints && id in v.states && v.states[id].IsClaimable()
    && w == v.(states := v.states[id := Running], claims := v.claims + multiset{id}, hints := w.hints)
    && w.hints <= v.hints
  }

  // A full-record write of Complete, Fail, Cancel or recovery.
  ghost predicate Settles(v: View, id: Id, state: JobState, w: View) {
    (state.IsTerminal() || state == Retrying) && w == v.(states := Put(v.states, id, state))
  }

  ghost predicate Reopens(v: View, id: Id, w: View) {
    && id in v.states
    && w == v.(states := v.states[id := Pending], retries := v.retries + multiset{id},
               hinted := v.hinted + if id in v.hints then multiset{id} else multiset{})
  }

  ghost predicate Adds(v: View, id: Id, state: JobState, w: View) {
    && id !in v.created && (state == Pending || state == Delayed)
    && w == v.(states := v.states[id := state], created := v.created + {id})
  }

  // ----- Every move keeps the accounting -----

  lemma DropsKeep(v: View, w: View)
    requires Inv(v) && Drops(v, w)
    ensures Inv(w)
  {
    forall id | id in w.created ensures Within(w, id) {
      assert Within(v, id);
    }
  }

  lemma ReadsPendingKeeps(v: View, w: View)
    requires Inv(v) && ReadsPending(v, w)
    ensures Inv(w)
  {
    forall id | id in w.created ensures Within(w, id) {
      assert Within(v, id);
    }
  }

  lemma ReadsDueKeeps(v: View, w: View)
    requires Inv(v) && ReadsDue(v, w)
    ensures Inv(w)
  {
    forall id | id in w.created ensures Within(w, id) {
      assert Within(v, id);
    }
  }

  // The budget of a job that the move does not concern.
  lemma SameBudget(v: View, w: View, id: Id)
    requires Within(v, id) && (id in w.states <==> id in v.states) && (id in v.states ==> w.states[id] == v.states[id])
    requires (id in w.marks <==> id in v.marks) && (id in w.due <==> id in v.due) && (id in w.hints ==> id in v.hints)
    requires w.claims[id] == v.claims[id] && w.retries[id] == v.retries[id] && w.hinted[id] == v.hinted[id]
    ensures Within(w, id)
  {
  }

  lemma MarkedBudget(v: View, id: Id, w: View)
    requires Within(v, id) && Marks(v, id, w) && (id in v.states ==> v.states[id] != Delayed)
    ensures Within(w, id)
  {
  }

  lemma MarksKeeps(v: View, id: Id, w: View)
    requires Inv(v) && Marks(v, id, w)
    ensures Inv(w)
  {
    forall other | other in w.created ensures Within(w, other) {
      assert Within(v, other);
      if other == id {
        MarkedBudget(v, id, w);
      } else {
        SameBudget(v, w, other);
      }
    }
  }

  lemma ReleasesKeeps(v: View, id: Id, w: View)
    requires Inv(v) && Releases(v, id, w)
    ensures Inv(w)
  {
    forall other | other in w.created ensures Within(w, other) {
      assert Within(v, other);
    }
  }

  lemma ClaimedBudget(v: View, id: Id, w: View)
    requires Within(v, id) && Claims(v, id, w)
    ensures Within(w, id)
  {
  }

  lemma ClaimsKeeps(v: View, id: Id, w: View)
    requires Inv(v) && Claims(v, id, w)
    ensures Inv(w)
  {
    forall other | other in w.created ensures Within(w, other) {
      assert Within(v, other);
      if other == id {
        ClaimedBudget(v, id, w);
      } else {
        SameBudget(v, w, other);
      }
    }
  }

  lemma SettlesKeeps(v: View, id: Id, state: JobState, w: View)
    requires Inv(v) && Settles(v, id, state, w)
    ensures Inv(w)
  {
    forall other | other in w.created ensures Within(w, other) {
      assert Within(v, other);
    }
  }

  lemma ReopenedBudget(v: View, id: Id, w: View)
    requires Within(v, id) && Reopens(v, id, w)
    ensures Within(w, id)
  {
  }

  lemma ReopensKeeps(v: View, id: Id, w: View)
    requires Inv(v) && Reopens(v, id, w)
    ensures Inv(w)
  {
    forall other | other in w.created ensures Within(w, other) {
      assert Within(v, other);
      if other == id {
        ReopenedBudget(v, id, w);
      } else {
        SameBudget(v, w, other);
      }
    }
  }

  lemma AddsKeeps(v: View, id: Id, state: JobState, w: View)
    requires Inv(v) && Adds(v, id, state, w)
    ensures Inv(w)
  {
    forall other | other in w.created ensures Within(w, other) {
      if other in v.created {
        assert Within(v, other);
      }
    }
  }
}
