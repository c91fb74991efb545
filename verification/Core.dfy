// Jobs, their states and the values they are made of (core/job.go, core/options.go).
module Core {
  // A UUID, ordered as the keys of a bucket are.
  type Id = nat

  // Nanoseconds since the zero time.
  type Time = int
  type Duration = int

  // A batch size or a limit, at least one.
  type Size = n: nat | n >= 1 witness 1

  const ZERO_TIME: Time := 0
  const SECOND: Duration := 1_000_000_000
  const HOUR: Duration := 3600 * SECOND

  datatype Option<+T> = None | Some(value: T)

  function One(b: bool): nat {
    if b then 1 else 0
  }

  datatype JobState =
    | Pending
    | Scheduled
    | Running
    | Retrying
    | Delayed
    | Completed
    | Failed
    | DeadLetter
    | Cancelled
  {
    predicate IsTerminal() {
      Completed? || Failed? || DeadLetter? || Cancelled?
    }

    // The states from which a worker may claim a job.
    predicate IsClaimable() {
      Pending? || Scheduled?
    }
  }

  datatype BackoffStrategy = Constant | Linear | Exponential | Unknown(name: string)

  // A finite float64: num / 2^scale.
  datatype Float64 = Float64(num: int, scale: nat)

  datatype Backoff = Backoff(strategy: BackoffStrategy, initial: Duration, max: Duration, multiplier: Float64)

  datatype ErrorCategory = NoCategory | Temporary | Permanent | Timeout | System | RateLimit

  datatype Job = Job(
    id: Id,
    idempotencyKey: string,
    correlationId: string,
    jobType: string,
    tags: map<string, string>,
    dependsOn: seq<Id>,
    metadata: map<string, string>,
    priority: int,
    delay: Duration,
    scheduledAt: Time,
    timeout: Duration,
    maxAttempts: int,
    attempt: int,
    backoff: Backoff,
    state: JobState,
    workerId: string,
    lastError: string,
    errorCategory: ErrorCategory,
    createdAt: Time,
    updatedAt: Time,
    startedAt: Time,
    completedAt: Time)
  {
    predicate IsTerminal() {
      state.IsTerminal()
    }
  }

  datatype JobResult = JobResult(
    jobId: Id,
    success: bool,
    output: seq<bv8>,
    error: string,
    category: ErrorCategory,
    duration: Duration,
    completedAt: Time)

  datatype JobOption =
    | WithId(id: Id)
    | WithIdempotencyKey(key: string)
    | WithCorrelationId(correlationId: string)
    | WithPriority(priority: int)
    | WithDelay(delay: Duration, now: Time)
    | WithScheduledAt(at: Time)
    | WithTimeout(timeout: Duration)
    | WithMaxAttempts(attempts: int)
    | WithBackoff(backoff: Backoff)
    | WithTags(tags: map<string, string>)
    | WithTag(name: string, value: string)
    | WithDependencies(deps: seq<Id>)
    | WithMetadata(metadata: map<string, string>)

  function DefaultJob(id: Id, jobType: string, now: Time): Job {
    Job(id, "", "", jobType, map[], [], map[], 2, 0, ZERO_TIME, 0, 3, 0,
        Backoff(Exponential, SECOND, HOUR, Float64(2, 0)),
        Pending, "", "", NoCategory, now, now, ZERO_TIME, ZERO_TIME)
  }

  function Apply(j: Job, opt: JobOption): Job {
    match opt
    case WithId(id) => j.(id := id)
    case WithIdempotencyKey(key) => j.(idempotencyKey := key)
    case WithCorrelationId(c) => j.(correlationId := c)
    case WithPriority(p) => j.(priority := p)
    case WithDelay(d, now) => j.(delay := d, scheduledAt := now + d)
    case WithScheduledAt(t) => j.(scheduledAt := t)
    case WithTimeout(d) => j.(timeout := d)
    case WithMaxAttempts(n) => j.(maxAttempts := n)
    case WithBackoff(b) => j.(backoff := b)
    case WithTags(tags) => j.(tags := tags)
    case WithTag(name, value) => j.(tags := j.tags[name := value])
    case WithDependencies(deps) => j.(dependsOn := deps)
    case WithMetadata(m) => j.(metadata := m)
  }

  function ApplyAll(j: Job, opts: seq<JobOption>): Job
    decreases |opts|
  {
    if opts == [] then j else ApplyAll(Apply(j, opts[0]), opts[1..])
  }

  // A record that no store or worker has touched yet.
  predicate Untouched(j: Job) {
    && (j.state == Pending || j.state == Delayed)
    && j.attempt == 0
    && j.startedAt == ZERO_TIME
    && j.completedAt == ZERO_TIME
  }

  // ----- What a list of options makes of a record -----

  // What an option may write.
  datatype Field =
    | IdField | KeyField | CorrelationField | PriorityField | DelayField | TimeField | TimeoutField
    | AttemptsField | BackoffField | TagField(name: string) | DependsField | MetadataField

  predicate Writes(o: JobOption, f: Field) {
    match f
    case IdField => o.WithId?
    case KeyField => o.WithIdempotencyKey?
    case CorrelationField => o.WithCorrelationId?
    case PriorityField => o.WithPriority?
    case DelayField => o.WithDelay?
    case TimeField => o.WithDelay? || o.WithScheduledAt?
    case TimeoutField => o.WithTimeout?
    case AttemptsField => o.WithMaxAttempts?
    case BackoffField => o.WithBackoff?
    case TagField(name) => o.WithTags? || (o.WithTag? && o.name == name)
    case DependsField => o.WithDependencies?
    case MetadataField => o.WithMetadata?
  }

  // The last option that writes a field.
  function LastWriter(opts: seq<JobOption>, f: Field): Option<JobOption> {
    if opts == [] then None
    else
      var last := opts[|opts| - 1];
      if Writes(last, f) then Some(last) else LastWriter(opts[..|opts| - 1], f)
  }

  lemma {:induction false} LastWriterIsLast(opts: seq<JobOption>, f: Field, i: nat)
    requires i < |opts| && Writes(opts[i], f) && forall k :: i < k < |opts| ==> !Writes(opts[k], f)
    ensures LastWriter(opts, f) == Some(opts[i])
    decreases |opts|
  {
    if i < |opts| - 1 {
      LastWriterIsLast(opts[..|opts| - 1], f, i);
    }
  }

  // The key a submission asks for.
  function KeyAsked(opts: seq<JobOption>): string {
    match LastWriter(opts, KeyField) case Some(WithIdempotencyKey(key)) => key case _ => ""
  }

  // Identity and rank are what the last option says, or the default.
  ghost predicate NamedBy(r: Job, id: Id, jobType: string, opts: seq<JobOption>) {
    && r.jobType == jobType && r.idempotencyKey == KeyAsked(opts)
    && r.id == (match LastWriter(opts, IdField) case Some(WithId(asked)) => asked case _ => id)
    && r.priority == (match LastWriter(opts, PriorityField) case Some(WithPriority(p)) => p case _ => 2)
  }

  ghost predicate DescribedBy(r: Job, opts: seq<JobOption>) {
    && r.correlationId == (match LastWriter(opts, CorrelationField) case Some(WithCorrelationId(c)) => c case _ => "")
    && r.dependsOn == (match LastWriter(opts, DependsField) case Some(WithDependencies(deps)) => deps case _ => [])
    && r.metadata == (match LastWriter(opts, MetadataField) case Some(WithMetadata(m)) => m case _ => map[])
  }

  // And so are the settings of its execution.
  ghost predicate TimedBy(r: Job, opts: seq<JobOption>) {
    && r.delay == (match LastWriter(opts, DelayField) case Some(WithDelay(d, _)) => d case _ => 0)
    && r.scheduledAt == (match LastWriter(opts, TimeField)
                         case Some(WithDelay(d, now)) => now + d
                         case Some(WithScheduledAt(t)) => t
                         case _ => 0)
  }

  ghost predicate SetBy(r: Job, opts: seq<JobOption>) {
    && r.timeout == (match LastWriter(opts, TimeoutField) case Some(WithTimeout(d)) => d case _ => 0)
    && r.maxAttempts == (match LastWriter(opts, AttemptsField) case Some(WithMaxAttempts(n)) => n case _ => 3)
    && r.backoff == (match LastWriter(opts, BackoffField)
                     case Some(WithBackoff(b)) => b
                     case _ => Backoff(Exponential, 1_000_000_000, 3600_000_000_000, Float64(2, 0)))
  }

  // What the last option that speaks of a tag says of it.
  function TagAsked(opts: seq<JobOption>, name: string): Option<string> {
    match LastWriter(opts, TagField(name))
    case Some(WithTag(_, value)) => Some(value)
    case Some(WithTags(tags)) => if name in tags then Some(tags[name]) else None
    case _ => None
  }

  ghost predicate TaggedBy(r: Job, opts: seq<JobOption>, name: string) {
    match TagAsked(opts, name)
    case Some(value) => name in r.tags && r.tags[name] == value
    case None => name !in r.tags
  }

  // Not begun, whatever the options.
  predicate Unbegun(r: Job, now: Time) {
    && r.state == Pending && r.attempt == 0 && r.workerId == "" && r.lastError == "" && r.errorCategory == NoCategory
    && r.createdAt == now && r.updatedAt == now && r.startedAt == 0 && r.completedAt == 0
  }

  // A record as NewJob makes it.
  ghost predicate Built(r: Job, id: Id, jobType: string, opts: seq<JobOption>, now: Time) {
    && NamedBy(r, id, jobType, opts) && DescribedBy(r, opts) && TimedBy(r, opts) && SetBy(r, opts) && Unbegun(r, now)
    && forall name :: TaggedBy(r, opts, name)
  }

  lemma {:induction false} ApplyLast(j: Job, opts: seq<JobOption>)
    requires opts != []
    ensures ApplyAll(j, opts) == Apply(ApplyAll(j, opts[..|opts| - 1]), opts[|opts| - 1])
    decreases |opts|
  {
    if |opts| > 1 {
      ApplyLast(Apply(j, opts[0]), opts[1..]);
      assert opts[1..][..|opts| - 2] == opts[..|opts| - 1][1..];
    }
  }

  lemma OneMoreWriter(init: seq<JobOption>, o: JobOption, f: Field)
    ensures LastWriter(init + [o], f) == if Writes(o, f) then Some(o) else LastWriter(init, f)
  {
    assert (init + [o])[..|init|] == init;
  }

  lemma OneMoreName(r: Job, id: Id, jobType: string, init: seq<JobOption>, o: JobOption)
    requires NamedBy(r, id, jobType, init)
    ensures NamedBy(Apply(r, o), id, jobType, init + [o])
  {
    OneMoreWriter(init, o, KeyField);
    OneMoreWriter(init, o, IdField);
    OneMoreWriter(init, o, PriorityField);
  }

  lemma OneMoreDetail(r: Job, init: seq<JobOption>, o: JobOption)
    requires DescribedBy(r, init)
    ensures DescribedBy(Apply(r, o), init + [o])
  {
    OneMoreWriter(init, o, CorrelationField);
    OneMoreWriter(init, o, DependsField);
    OneMoreWriter(init, o, MetadataField);
    match o {
      case WithCorrelationId(_) =>
      case WithDependencies(_) =>
      case WithMetadata(_) =>
      case _ =>
    }
  }

  lemma OneMoreTime(r: Job, init: seq<JobOption>, o: JobOption)
    requires TimedBy(r, init)
    ensures TimedBy(Apply(r, o), init + [o])
  {
    OneMoreWriter(init, o, DelayField);
    OneMoreWriter(init, o, TimeField);
  }

  lemma OneMoreSetting(r: Job, init: seq<JobOption>, o: JobOption)
    requires SetBy(r, init)
    ensures SetBy(Apply(r, o), init + [o])
  {
    OneMoreWriter(init, o, TimeoutField);
    OneMoreWriter(init, o, AttemptsField);
    OneMoreWriter(init, o, BackoffField);
  }

  lemma {:induction false} OptionsName(id: Id, jobType: string, opts: seq<JobOption>, now: Time)
    ensures NamedBy(ApplyAll(DefaultJob(id, jobType, now), opts), id, jobType, opts)
    decreases |opts|
  {
    if opts != [] {
      var init, last := opts[..|opts| - 1], opts[|opts| - 1];
      OptionsName(id, jobType, init, now);
      ApplyLast(DefaultJob(id, jobType, now), opts);
      OneMoreName(ApplyAll(DefaultJob(id, jobType, now), init), id, jobType, init, last);
      assert init + [last] == opts;
    }
  }

  lemma {:induction false} OptionsDescribe(id: Id, jobType: string, opts: seq<JobOption>, now: Time)
    ensures DescribedBy(ApplyAll(DefaultJob(id, jobType, now), opts), opts)
    decreases |opts|
  {
    if opts != [] {
      var init, last := opts[..|opts| - 1], opts[|opts| - 1];
      OptionsDescribe(id, jobType, init, now);
      ApplyLast(DefaultJob(id, jobType, now), opts);
      OneMoreDetail(ApplyAll(DefaultJob(id, jobType, now), init), init, last);
      assert init + [last] == opts;
    }
  }

  lemma {:induction false} OptionsTime(id: Id, jobType: string, opts: seq<JobOption>, now: Time)
    ensures TimedBy(ApplyAll(DefaultJob(id, jobType, now), opts), opts)
    decreases |opts|
  {
    if opts != [] {
      var init, last := opts[..|opts| - 1], opts[|opts| - 1];
      OptionsTime(id, jobType, init, now);
      ApplyLast(DefaultJob(id, jobType, now), opts);
      OneMoreTime(ApplyAll(DefaultJob(id, jobType, now), init), init, last);
      assert init + [last] == opts;
    }
  }

  lemma {:induction false} OptionsSet(id: Id, jobType: string, opts: seq<JobOption>, now: Time)
    ensures SetBy(ApplyAll(DefaultJob(id, jobType, now), opts), opts)
    decreases |opts|
  {
    if opts != [] {
      var init, last := opts[..|opts| - 1], opts[|opts| - 1];
      OptionsSet(id, jobType, init, now);
      ApplyLast(DefaultJob(id, jobType, now), opts);
      OneMoreSetting(ApplyAll(DefaultJob(id, jobType, now), init), init, last);
      assert init + [last] == opts;
    }
  }

  lemma {:induction false} OptionsTag(id: Id, jobType: string, opts: seq<JobOption>, now: Time, name: string)
    ensures TaggedBy(ApplyAll(DefaultJob(id, jobType, now), opts), opts, name)
    decreases |opts|
  {
    if opts != [] {
      OptionsTag(id, jobType, opts[..|opts| - 1], now, name);
      ApplyLast(DefaultJob(id, jobType, now), opts);
    }
  }

  // No option reaches the state, the attempt counter or the execution times.
  lemma {:induction false} OptionsLeaveExecutionAlone(id: Id, jobType: string, opts: seq<JobOption>, now: Time)
    ensures Unbegun(ApplyAll(DefaultJob(id, jobType, now), opts), now)
    decreases |opts|
  {
    if opts != [] {
      OptionsLeaveExecutionAlone(id, jobType, opts[..|opts| - 1], now);
      ApplyLast(DefaultJob(id, jobType, now), opts);
    }
  }

  // The last option that writes a field decides it; a field that none writes has its default.
  lemma LastOptionWins(id: Id, jobType: string, opts: seq<JobOption>, now: Time)
    ensures Built(ApplyAll(DefaultJob(id, jobType, now), opts), id, jobType, opts, now)
  {
    OptionsName(id, jobType, opts, now);
    OptionsDescribe(id, jobType, opts, now);
    OptionsTime(id, jobType, opts, now);
    OptionsSet(id, jobType, opts, now);
    OptionsLeaveExecutionAlone(id, jobType, opts, now);
    forall name ensures TaggedBy(ApplyAll(DefaultJob(id, jobType, now), opts), opts, name) {
      OptionsTag(id, jobType, opts, now, name);
    }
  }

  method NewJob(id: Id, jobType: string, opts: seq<JobOption>, now: Time) returns (job: Job)
    ensures job == ApplyAll(DefaultJob(id, jobType, now), opts)
    ensures Built(job, id, jobType, opts, now)
  {
    job := DefaultJob(id, jobType, now);
    for i := 0 to |opts|
      invariant ApplyAll(job, opts[i..]) == ApplyAll(DefaultJob(id, jobType, now), opts)
    {
      assert opts[i..][0] == opts[i] && opts[i..][1..] == opts[i + 1..];
      job := Apply(job, opts[i]);
    }
    LastOptionWins(id, jobType, opts, now);
  }
}
