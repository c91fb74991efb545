// Error chains and their category, and what a category makes of a job (core/errors.go,
// worker/simple_pool.go, scheduler/scheduler.go).
module Errors {
  import opened Core
  import Lifecycle

  // What a handler may return: the repository's error types, the two context errors, plain errors,
  // and the wrapping and joining of errors.
  datatype Err =
    | DeadlineExceeded
    | ContextCanceled
    | TemporaryError(message: string, underlying: Option<Err>)
    | PermanentError(message: string, underlying: Option<Err>)
    | TimeoutError(message: string)
    | RateLimitError(message: string, retryIn: int)
    | ValidationError(field: string, message: string)
    | Plain(message: string)
    | Wrapped(message: string, inner: Err)
    | Joined(errs: seq<Err>)

  datatype Kind = IsDeadline | IsCanceled | IsTemporary | IsPermanent | IsTimeout | IsRateLimit | IsOther

  function KindOf(e: Err): Kind {
    match e
    case DeadlineExceeded => IsDeadline
    case ContextCanceled => IsCanceled
    case TemporaryError(_, _) => IsTemporary
    case PermanentError(_, _) => IsPermanent
    case TimeoutError(_) => IsTimeout
    case RateLimitError(_, _) => IsRateLimit
    case _ => IsOther
  }

  // errors.Is and errors.As: the error itself, then what it unwraps to, depth first.
  predicate Finds(e: Err, k: Kind) {
    KindOf(e) == k ||
    match e
    case TemporaryError(_, u) => u.Some? && Finds(u.value, k)
    case PermanentError(_, u) => u.Some? && Finds(u.value, k)
    case Wrapped(_, inner) => Finds(inner, k)
    case Joined(errs) => exists i :: 0 <= i < |errs| && Finds(errs[i], k)
    case _ => false
  }

  function ClassifyError(err: Option<Err>): ErrorCategory {
    match err
    case None => NoCategory
    case Some(e) =>
      if Finds(e, IsDeadline) then Timeout
      else if Finds(e, IsCanceled) then System
      else if Finds(e, IsTemporary) then Temporary
      else if Finds(e, IsPermanent) then Permanent
      else if Finds(e, IsTimeout) then Timeout
      else if Finds(e, IsRateLimit) then RateLimit
      else Temporary
  }

  predicate IsRetriable(err: Option<Err>) {
    ClassifyError(err) == Temporary || ClassifyError(err) == RateLimit
  }

  // ----- The nesting does not matter -----

  // The errors of a chain: the error itself and all that it unwraps to.
  function Parts(e: Err): set<Err> {
    {e} +
    match e
    case TemporaryError(_, u) => if u.Some? then Parts(u.value) else {}
    case PermanentError(_, u) => if u.Some? then Parts(u.value) else {}
    case Wrapped(_, inner) => Parts(inner)
    case Joined(errs) => PartsOfAll(errs)
    case _ => {}
  }

  function PartsOfAll(errs: seq<Err>): set<Err> {
    if errs == [] then {} else Parts(errs[0]) + PartsOfAll(errs[1..])
  }

  // What each wrapper adds to what it wraps, and a join to what it joins.
  lemma PartsOfWrappers(message: string, e: Err, errs: seq<Err>, x: Err)
    ensures x in Parts(TemporaryError(message, Some(e))) <==> x == TemporaryError(message, Some(e)) || x in Parts(e)
    ensures x in Parts(PermanentError(message, Some(e))) <==> x == PermanentError(message, Some(e)) || x in Parts(e)
    ensures x in Parts(Wrapped(message, e)) <==> x == Wrapped(message, e) || x in Parts(e)
    ensures x in Parts(Joined(errs)) <==> x == Joined(errs) || exists i :: 0 <= i < |errs| && x in Parts(errs[i])
  {
    InOneOfAll(errs, x);
  }

  lemma {:induction false} InOneOfAll(errs: seq<Err>, x: Err)
    ensures x in PartsOfAll(errs) <==> exists i :: 0 <= i < |errs| && x in Parts(errs[i])
    decreases |errs|
  {
    if errs != [] {
      InOneOfAll(errs[1..], x);
      assert forall i :: 1 <= i < |errs| ==> errs[i] == errs[1..][i - 1];
      if i :| 0 <= i < |errs[1..]| && x in Parts(errs[1..][i]) {
        assert x in Parts(errs[i + 1]);
      }
    }
  }

  predicate HasDeadline(e: Err) {
    exists x :: x in Parts(e) && x.DeadlineExceeded?
  }

  predicate HasCancel(e: Err) {
    exists x :: x in Parts(e) && x.ContextCanceled?
  }

  predicate HasTemporary(e: Err) {
    exists x :: x in Parts(e) && x.TemporaryError?
  }

  predicate HasPermanent(e: Err) {
    exists x :: x in Parts(e) && x.PermanentError?
  }

  predicate HasTimeout(e: Err) {
    exists x :: x in Parts(e) && x.TimeoutError?
  }

  predicate HasRateLimit(e: Err) {
    exists x :: x in Parts(e) && x.RateLimitError?
  }

  // Is the category Temporary? If one of the chain is a TemporaryError and no context error goes before it,
  // or if the chain has none of the six.
  predicate Transient(e: Err) {
    && !HasDeadline(e) && !HasCancel(e)
    && (HasTemporary(e) || (!HasPermanent(e) && !HasTimeout(e) && !HasRateLimit(e)))
  }

  predicate OnlyRateLimited(e: Err) {
    HasRateLimit(e) && !HasDeadline(e) && !HasCancel(e) && !HasTemporary(e) && !HasPermanent(e) && !HasTimeout(e)
  }

  // What errors.Is and errors.As find is what is in the chain.
  lemma {:induction false} FindsIsMembership(e: Err, k: Kind)
    ensures Finds(e, k) <==> exists x :: x in Parts(e) && KindOf(x) == k
    decreases e, 0
  {
    assert e in Parts(e);
    match e {
      case TemporaryError(_, u) => if u.Some? { FindsIsMembership(u.value, k); }
      case PermanentError(_, u) => if u.Some? { FindsIsMembership(u.value, k); }
      case Wrapped(_, inner) => FindsIsMembership(inner, k);
      case Joined(errs) => FindsInAll(errs, k);
      case _ =>
    }
  }

  lemma {:induction false} FindsInAll(errs: seq<Err>, k: Kind)
    ensures (exists i :: 0 <= i < |errs| && Finds(errs[i], k)) <==> exists x :: x in PartsOfAll(errs) && KindOf(x) == k
    decreases errs, 1
  {
    if errs != [] {
      FindsIsMembership(errs[0], k);
      FindsInAll(errs[1..], k);
      assert forall i :: 1 <= i < |errs| ==> errs[i] == errs[1..][i - 1];
      if i :| 0 <= i < |errs[1..]| && Finds(errs[1..][i], k) {
        assert Finds(errs[i + 1], k);
      }
    }
  }

  lemma FindsTheContextErrors(e: Err)
    ensures Finds(e, IsDeadline) <==> HasDeadline(e)
    ensures Finds(e, IsCanceled) <==> HasCancel(e)
  {
    FindsIsMembership(e, IsDeadline);
    FindsIsMembership(e, IsCanceled);
  }

  lemma FindsTheWrappers(e: Err)
    ensures Finds(e, IsTemporary) <==> HasTemporary(e)
    ensures Finds(e, IsPermanent) <==> HasPermanent(e)
  {
    FindsIsMembership(e, IsTemporary);
    FindsIsMembership(e, IsPermanent);
  }

  lemma FindsTheOthers(e: Err)
    ensures Finds(e, IsTimeout) <==> HasTimeout(e)
    ensures Finds(e, IsRateLimit) <==> HasRateLimit(e)
  {
    FindsIsMembership(e, IsTimeout);
    FindsIsMembership(e, IsRateLimit);
  }

  // The category depends on the types in the chain alone, in this order of precedence.
  lemma CategoryByTypes(e: Err)
    ensures ClassifyError(Some(e)) ==
            if HasDeadline(e) then Timeout
            else if HasCancel(e) then System
            else if HasTemporary(e) then Temporary
            else if HasPermanent(e) then Permanent
            else if HasTimeout(e) then Timeout
            else if HasRateLimit(e) then RateLimit
            else Temporary
  {
    FindsTheContextErrors(e);
    FindsTheWrappers(e);
    FindsTheOthers(e);
  }

  // Each type standing alone.
  lemma AloneCategories(message: string, field: string, retryIn: int)
    ensures ClassifyError(None) == NoCategory
    ensures ClassifyError(Some(DeadlineExceeded)) == Timeout
    ensures ClassifyError(Some(ContextCanceled)) == System
    ensures ClassifyError(Some(TemporaryError(message, None))) == Temporary
    ensures ClassifyError(Some(PermanentError(message, None))) == Permanent
    ensures ClassifyError(Some(TimeoutError(message))) == Timeout
    ensures ClassifyError(Some(RateLimitError(message, retryIn))) == RateLimit
    ensures ClassifyError(Some(ValidationError(field, message))) == Temporary
    ensures ClassifyError(Some(Plain(message))) == Temporary
  {
  }

  lemma NestingDoesNotMatter(a: Err, b: Err)
    requires HasDeadline(a) == HasDeadline(b) && HasCancel(a) == HasCancel(b)
    requires HasTemporary(a) == HasTemporary(b) && HasPermanent(a) == HasPermanent(b)
    requires HasTimeout(a) == HasTimeout(b) && HasRateLimit(a) == HasRateLimit(b)
    ensures ClassifyError(Some(a)) == ClassifyError(Some(b))
  {
    CategoryByTypes(a);
    CategoryByTypes(b);
  }

  // Wrapping an error in a plain one never changes its category.
  lemma WrappingKeepsTheCategory(e: Err, message: string)
    ensures ClassifyError(Some(Wrapped(message, e))) == ClassifyError(Some(e))
  {
    assert Parts(Wrapped(message, e)) == {Wrapped(message, e)} + Parts(e);
    NestingDoesNotMatter(Wrapped(message, e), e);
  }

  // ----- From an error to the job's next state -----

  // The result processJob reports for an error; a panic arrives as a PermanentError.
  function FailureOf(id: Id, e: Err, text: string, duration: Duration, now: Time): JobResult {
    JobResult(id, false, [], text, ClassifyError(Some(e)), duration, now)
  }

  lemma ErrorDecidesTheState(j: Job, e: Err, text: string, duration: Duration, delay: Duration, now: Time)
    ensures var state := Lifecycle.Fail(j, FailureOf(j.id, e, text, duration, now), delay, now).state;
            && (state == Retrying <==> Transient(e) && j.attempt < j.maxAttempts)
            && (state == DeadLetter <==> j.attempt >= j.maxAttempts)
            && (state == Failed <==> !Transient(e) && j.attempt < j.maxAttempts)
  {
    CategoryByTypes(e);
  }

  // IsRetriable and Fail part ways exactly on rate limits: retriable by name, failed in fact.
  lemma RateLimitsAreNotRetried(j: Job, e: Err, text: string, duration: Duration, delay: Duration, now: Time)
    requires j.attempt < j.maxAttempts
    ensures var state := Lifecycle.Fail(j, FailureOf(j.id, e, text, duration, now), delay, now).state;
            && (IsRetriable(Some(e)) <==> state == Retrying || OnlyRateLimited(e))
            && (OnlyRateLimited(e) ==> state == Failed)
  {
    CategoryByTypes(e);
  }
}
