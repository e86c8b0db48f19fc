/**
 Every interleaving of submissions, runners and cancellations (registry/requests.py): a runner is cut at its
 awaits, and each step below is one stretch of code that runs without being interrupted.
 */
module RequestSystem {
  import opened Wrappers
  import opened RequestModel
  import opened RequestAdmission

  /** Where the coroutine of a request is suspended, or how it ended. */
  datatype Phase =
    | Admitting
    | Denied
    | Launched
    | Waiting
    | Submitting
    | Consuming
    | Stopping(tooLarge: bool)
    | Releasing(crashed: bool)
    | Done
  {
    /** Inside the semaphore. */
    predicate Holding() {
      Submitting? || Leased()
    }

    /** Between the grant of a native lease and the call that releases it. */
    predicate Leased() {
      Consuming? || Stopping? || Releasing?
    }
  }

  /** `received` is everything that was taken from the queue, kept beside the record. */
  datatype Job = Job(record: Record, query: Query, phase: Phase, outcome: Outcome, received: seq<Message>)

  datatype Step =
    | AdmitQuota
    | DenyQuota
    | Start
    | Acquire
    | Accept(lease: Lease)
    | Refuse(code: ErrorCode)
    | CrashSubmitting
    | Receive(message: Message, stored: Option<string>)
    | Fail(code: ErrorCode)
    | ReachDeadline
    | Stop
    | CrashStopping
    | Release(crashes: bool)
    | CrashReleasing
    | AskCancel

  predicate CanStep(now: int, job: Job, step: Step) {
    match step
    case AdmitQuota => job.phase.Admitting?
    case DenyQuota => job.phase.Admitting?
    case Start => job.phase.Launched?
    case Acquire => job.phase.Waiting?
    case Accept(_) => job.phase.Submitting?
    case Refuse(_) => job.phase.Submitting?
    case CrashSubmitting => job.phase.Submitting?
    case Receive(_, _) => job.phase.Consuming?
    case Fail(_) => job.phase.Consuming?
    case ReachDeadline => job.phase.Consuming? && now >= job.record.deadline
    case Stop => job.phase.Stopping?
    case CrashStopping => job.phase.Stopping?
    case Release(_) => job.phase.Releasing?
    case CrashReleasing => job.phase.Releasing?
    case AskCancel => true
  }

  function ReceiveMessage(limits: Limits, job: Job, m: Message, stored: Option<string>): Job {
    var r := Append(job.record, m);
    var job' := job.(record := r, received := job.received + [m]);
    if r.byteCount > limits.maxResponseBytes then job'.(phase := Stopping(true))
    else if m.kind.Response? then
      match Finalize(limits, job.query, Complete(r), stored)
      case Finished(r', o) => job'.(record := r', outcome := o, phase := Releasing(false))
      case Raised(r') => job'.(record := r', phase := Releasing(true))
    else job'
  }

  function After(limits: Limits, job: Job, step: Step): Job {
    var r := job.record;
    match step
    case AdmitQuota => job.(phase := Launched)
    case DenyQuota => job.(phase := Denied)
    case Start => job.(phase := Waiting, record := Enqueue(r))
    case Acquire =>
      if r.status.Cancelling? then job.(phase := Done, record := CancelBeforeStart(r)) else job.(phase := Submitting)
    case Accept(lease) => job.(phase := Consuming, record := MarkSent(r, lease))
    case Refuse(code) => job.(phase := Done, record := SubmitFailed(r, code))
    case CrashSubmitting => job.(phase := Done, record := Crash(r))
    case Receive(m, stored) => ReceiveMessage(limits, job, m, stored)
    case Fail(code) => job.(phase := Releasing(false), record := Interrupt(r, code))
    case ReachDeadline => job.(phase := Stopping(false))
    case Stop =>
      if !job.phase.Stopping? then job
      else job.(phase := Releasing(false), record := if job.phase.tooLarge then RefuseSize(r) else PassDeadline(r))
    case CrashStopping => job.(phase := Releasing(true))
    case Release(crashes) =>
      if !job.phase.Releasing? then job
      else
        var released := ReleaseLease(r);
        job.(phase := Done, record := if job.phase.crashed || crashes then Crash(released) else released)
    case CrashReleasing => job.(phase := Done, record := Crash(r))
    case AskCancel => job.(record := Cancel(r))
  }

  datatype System = System(
    limits: Limits,
    now: int,
    jobs: seq<Job>,
    registered: seq<RequestId>,
    permits: int,
    granted: set<Lease>,
    released: seq<Lease>)

  datatype Action =
    | Advance(now: int)
    | Submit(query: Query, deadline: int, expiresAt: int)
    | Take(id: RequestId, step: Step)
    | SweepRecords(ttl: Option<int>)

  function Initial(limits: Limits, now: int): System {
    System(limits, now, [], [], limits.maxConcurrent, {}, [])
  }

  // ------------------------------------------------------------- the store

  ghost predicate WellFormed(s: System) {
    && (forall k | 0 <= k < |s.registered| :: s.registered[k] < |s.jobs|)
    && (forall i, j | 0 <= i < j < |s.registered| :: s.registered[i] != s.registered[j])
  }

  function EntryOf(id: RequestId, r: Record): Entry {
    Entry(id, r.status, r.createdAt, r.expiresAt)
  }

  /** The store as the registry sees it. */
  function Entries(jobs: seq<Job>, registered: seq<RequestId>): (es: seq<Entry>)
    requires forall k | 0 <= k < |registered| :: registered[k] < |jobs|
    ensures |es| == |registered|
    ensures forall k | 0 <= k < |es| :: es[k] == EntryOf(registered[k], jobs[registered[k]].record)
  {
    seq(|registered|, k requires 0 <= k < |registered| => EntryOf(registered[k], jobs[registered[k]].record))
  }

  function IdsInOrder(es: seq<Entry>): (ids: seq<RequestId>)
    ensures |ids| == |es| && forall k | 0 <= k < |ids| :: ids[k] == es[k].id
  {
    seq(|es|, k requires 0 <= k < |es| => es[k].id)
  }

  predicate Enabled(s: System, a: Action) {
    match a
    case Advance(now) => now >= s.now
    case Submit(_, _, _) => true
    case Take(id, step) =>
      && id < |s.jobs| && CanStep(s.now, s.jobs[id], step)
      && (step.Acquire? ==> s.permits > 0)
      && (step.Accept? ==> step.lease !in s.granted)
      && (step.AskCancel? ==> id in s.registered)
    case SweepRecords(_) => true
  }

  function HeldBy(job: Job): nat {
    if job.phase.Holding() then 1 else 0
  }

  /** Permits are taken and given back with the phase; granted leases and release calls are recorded. */
  function TakeStep(s: System, id: RequestId, step: Step): System
    requires id < |s.jobs|
  {
    var job := s.jobs[id];
    var job' := After(s.limits, job, step);
    s.(jobs := s.jobs[id := job'],
       permits := s.permits + HeldBy(job) - HeldBy(job'),
       registered := if step.DenyQuota? then Removed(s.registered, id) else s.registered,
       granted := if step.Accept? then s.granted + {step.lease} else s.granted,
       released :=
         if (step.Release? || step.CrashReleasing?) && job.record.lease.Some? then s.released + [job.record.lease.value]
         else s.released)
  }

  function Removed(ids: seq<RequestId>, id: RequestId): seq<RequestId> {
    if ids == [] then []
    else Removed(ids[..|ids| - 1], id) + if ids[|ids| - 1] == id then [] else [ids[|ids| - 1]]
  }

  function Register(s: System, query: Query, r: Record): System
    requires WellFormed(s)
  {
    var id := |s.jobs|;
    var admitted := TryRegister(Entries(s.jobs, s.registered), EntryOf(id, r),
                                s.limits.maxConcurrent + s.limits.maxQueued);
    if admitted.None? then s
    else s.(jobs := s.jobs + [Job(r, query, Admitting, NOTHING, [])], registered := IdsInOrder(admitted.value))
  }

  ghost function Next(s: System, a: Action): System {
    if WellFormed(s) && Enabled(s, a) then Taken(s, a) else s
  }

  function Taken(s: System, a: Action): System
    requires WellFormed(s) && Enabled(s, a)
  {
    match a
    case Advance(now) => s.(now := now)
    case Submit(query, deadline, expiresAt) => Register(s, query, NewRecord(s.now, deadline, expiresAt))
    case Take(id, step) => TakeStep(s, id, step)
    case SweepRecords(ttl) => s.(registered := IdsInOrder(Sweep(Entries(s.jobs, s.registered), ttl, s.now)))
  }

  // ------------------------------------------------- what a job keeps

  function Bytes(messages: seq<Message>): nat {
    if messages == [] then 0 else Bytes(messages[..|messages| - 1]) + messages[|messages| - 1].size
  }

  function Partials(messages: seq<Message>): nat {
    if messages == [] then 0
    else Partials(messages[..|messages| - 1]) + if messages[|messages| - 1].kind.PartialResponse? then 1 else 0
  }

  ghost predicate NoResponse(messages: seq<Message>) {
    forall m <- messages :: !m.kind.Response?
  }

  /** The last message is the only response. */
  ghost predicate Answered(messages: seq<Message>) {
    messages != [] && messages[|messages| - 1].kind.Response? && NoResponse(messages[..|messages| - 1])
  }

  /** The counters are those of what was received. */
  ghost predicate Tallied(job: Job) {
    && job.record.byteCount == Bytes(job.received)
    && job.record.eventCount == |job.received|
    && job.record.partialCount == Partials(job.received)
  }

  ghost predicate NotFinal(job: Job) {
    && job.record.final.None? && job.record.resultId.None? && job.outcome == NOTHING
    && job.record.messages == job.received && job.record.warnings == []
  }

  ghost predicate Untouched(job: Job) {
    && NotFinal(job) && job.received == [] && job.record.itemErrors == [] && job.record.error.None?
  }

  /** The response went over the size limit with its last message. */
  ghost predicate Overflowed(limits: Limits, messages: seq<Message>) {
    && messages != [] && NoResponse(messages[..|messages| - 1])
    && Bytes(messages[..|messages| - 1]) <= limits.maxResponseBytes < Bytes(messages)
  }

  ghost predicate Collecting(limits: Limits, job: Job) {
    && NotFinal(job) && job.record.error.None? && job.record.itemErrors == []
    && (job.record.status.Sent? || job.record.status.Partial? || job.record.status.Cancelling?)
  }

  ghost predicate Open(limits: Limits, messages: seq<Message>) {
    NoResponse(messages) && Bytes(messages) <= limits.maxResponseBytes
  }

  /** Nothing is taken from the queue after a response, nor after the size limit was passed. */
  ghost predicate StreamOk(limits: Limits, messages: seq<Message>) {
    || Open(limits, messages)
    || Overflowed(limits, messages)
    || (Answered(messages) && Bytes(messages) <= limits.maxResponseBytes)
  }

  /** No normalizer is registered, and the messages are given instead, or the request is refused. */
  predicate Fallback(q: Query) {
    q.mode.Normalized? && q.normalizer.None?
  }

  predicate Unavailable(q: Query) {
    Fallback(q) && !q.versioned && !q.allowFallback
  }

  /** The data or the artifact of a result, which of the two it is, and where its content comes from. */
  ghost predicate FromMessages(limits: Limits, q: Query, f: FinalResult, received: seq<Message>) {
    && (q.mode.Normalized? ==> Fallback(q))
    && f.mode == (if q.mode.Normalized? then Canonical else q.mode)
    && (f.data.Some? <==> Inline(limits, q, MessageList(Results(received))))
    && (f.data.Some? ==> f.data == Some(MessageList(Results(received))))
    && (f.artifact.Some? ==>
          && f.artifact.value.content == MessageLines(Results(received)) && f.artifact.value.mode == f.mode
          && f.artifact.value.messageCount == |Results(received)|
          && f.preview == Some(MessagePreview(RequestModel.Take(Results(received), Clamp(q.previewItems)))))
  }

  ghost predicate FromTable(limits: Limits, q: Query, f: FinalResult, received: seq<Message>) {
    && q.mode.Normalized? && f.mode.Normalized? && q.normalizer.Some? && q.normalizer.value(received).Some?
    && var table := q.normalizer.value(received).value;
    && (f.data.Some? <==> Inline(limits, q, TableData(table)))
    && (f.data.Some? ==> f.data == Some(TableData(table)))
    && (f.artifact.Some? ==>
          && f.artifact.value.content == TableContent(q, table) && f.artifact.value.mode == f.mode
          && f.artifact.value.messageCount == |received|
          && f.preview == Some(TablePreviewOf(table, Clamp(q.previewItems))))
  }

  /** The warnings of a result: one for a fallback, one for an artifact. */
  function WarningsOf(q: Query, f: FinalResult): seq<Warning> {
    (if f.error.None? && Fallback(q) then [NormalizerFallback] else []) + if f.artifact.Some? then [LargeResult] else []
  }

  /** A final result: the raw messages are gone, and the caller was handed the same things. */
  ghost predicate Delivered(limits: Limits, job: Job) {
    && job.record.final.Some?
    && var f, r := job.record.final.value, job.record;
    && r.messages == [] && Answered(job.received) && Bytes(job.received) <= limits.maxResponseBytes
    && f.itemErrors == r.itemErrors == limits.itemErrors(job.received) && f.warnings == r.warnings
    && f.warnings == WarningsOf(job.query, f)
    && job.outcome == Outcome(f.data, f.artifact, f.preview)
    && (f.preview.Some? <==> f.artifact.Some?)
    && r.resultId == (if f.artifact.Some? then Some(f.artifact.value.resultId) else None)
    && (f.error.Some? <==> Unavailable(job.query))
    && (if f.error.Some? then f.error == Some(NORMALIZER_NOT_AVAILABLE) && f.data.None? && f.artifact.None?
        else
          && (f.data.Some? <==> f.artifact.None?)
          && (FromMessages(limits, job.query, f, job.received) || FromTable(limits, job.query, f, job.received)))
  }

  /** A result is either completed, or failed for want of a normalizer. */
  ghost predicate Settled(r: Record) {
    && r.final.Some? && r.error == r.final.value.error && r.status == r.final.value.status
    && (r.error.None? ==> r.status.Completed?) && (r.error.Some? ==> r.status.Failed?)
  }

  /** An orderly end without a result. */
  ghost predicate Ended(limits: Limits, job: Job) {
    && NotFinal(job) && job.record.itemErrors == []
    && (job.record.status.Failed? || job.record.status.TimedOut? || job.record.status.Cancelled?)
    && (Open(limits, job.received) ||
        (job.record.error == Some(RESPONSE_TOO_LARGE) && job.record.status.Failed? && Overflowed(limits, job.received)))
  }

  /** Something raised: before a result was there, or after. */
  ghost predicate Crashed(limits: Limits, job: Job) {
    job.record.status.Failed? && job.record.error == Some(INTERNAL_ERROR) && (NotFinal(job) || Delivered(limits, job))
  }

  ghost predicate JobOk(limits: Limits, job: Job) {
    && Tallied(job) && StreamOk(limits, job.received)
    && (match job.phase
        case Admitting => Untouched(job) && (job.record.status.Received? || job.record.status.Cancelling?)
        case Denied => Untouched(job) && (job.record.status.Received? || job.record.status.Cancelling?)
        case Launched => Untouched(job) && (job.record.status.Received? || job.record.status.Cancelling?)
        case Waiting => Untouched(job) && (job.record.status.Queued? || job.record.status.Cancelling?)
        case Submitting => Untouched(job) && (job.record.status.Queued? || job.record.status.Cancelling?)
        case Consuming => Collecting(limits, job) && Open(limits, job.received)
        case Stopping(tooLarge) =>
          && Collecting(limits, job)
          && (if tooLarge then Overflowed(limits, job.received) else Open(limits, job.received))
        case Releasing(crashed) =>
          if crashed then
            && NotFinal(job) && job.record.error.None?
            && (job.record.status.Completed? ==>
                  Answered(job.received) && Bytes(job.received) <= limits.maxResponseBytes)
          else (Delivered(limits, job) && Settled(job.record)) || Ended(limits, job)
        case Done => (Delivered(limits, job) && Settled(job.record)) || Ended(limits, job) || Crashed(limits, job))
  }

  ghost predicate JobsOk(s: System) {
    forall i | 0 <= i < |s.jobs| :: JobOk(s.limits, s.jobs[i])
  }

  // --------------------------------------------------- the path of one job

  /** A step and the time it is taken at. */
  datatype Moment = Moment(now: int, step: Step)

  ghost function Follow(limits: Limits, job: Job, path: seq<Moment>): Job {
    if path == [] then job else After(limits, Follow(limits, job, path[..|path| - 1]), path[|path| - 1].step)
  }

  ghost predicate CanFollow(limits: Limits, job: Job, path: seq<Moment>) {
    path == [] ||
    var init, last := path[..|path| - 1], path[|path| - 1];
    CanFollow(limits, job, init) && CanStep(last.now, Follow(limits, job, init), last.step)
  }

  lemma FollowSnoc(limits: Limits, job: Job, path: seq<Moment>, m: Moment)
    requires CanFollow(limits, job, path) && CanStep(m.now, Follow(limits, job, path), m.step)
    ensures CanFollow(limits, job, path + [m])
    ensures Follow(limits, job, path + [m]) == After(limits, Follow(limits, job, path), m.step)
  {
    assert (path + [m])[..|path|] == path;
  }

  // ------------------------------------------------- what the system keeps

  function Holders(jobs: seq<Job>): nat {
    if jobs == [] then 0 else Holders(jobs[..|jobs| - 1]) + HeldBy(jobs[|jobs| - 1])
  }

  ghost predicate PermitsOk(s: System) {
    s.permits >= 0 && s.permits + Holders(s.jobs) == s.limits.maxConcurrent
  }

  ghost predicate BoundOk(s: System)
    requires WellFormed(s)
  {
    InFlightCount(Entries(s.jobs, s.registered)) <= s.limits.maxConcurrent + s.limits.maxQueued
  }

  /** A lease is with the one runner that was granted it, or it was released. */
  ghost predicate LeasesOk(s: System) {
    && (forall i | 0 <= i < |s.jobs| :: LeaseOk(s, s.jobs[i]))
    && (forall i, j | 0 <= i < j < |s.jobs| && s.jobs[i].record.lease.Some? ::
        s.jobs[i].record.lease != s.jobs[j].record.lease)
    && (forall t <- s.granted :: t in s.released || exists i :: 0 <= i < |s.jobs| && Holds(s.jobs[i], t))
    && (forall t <- s.released :: t in s.granted)
    && (forall i, j | 0 <= i < j < |s.released| :: s.released[i] != s.released[j])
  }

  predicate Holds(job: Job, t: Lease) {
    job.phase.Leased() && job.record.lease == Some(t)
  }

  ghost predicate LeaseOk(s: System, job: Job) {
    && (job.phase.Leased() ==> job.record.lease.Some? && job.record.lease.value !in s.released)
    && (job.record.lease.Some? ==>
          && job.record.lease.value in s.granted
          && (job.phase.Leased() || (job.phase.Done? && job.record.lease.value in s.released)))
  }

  ghost predicate Inv(s: System) {
    && s.limits.maxResponseBytes >= 0
    && WellFormed(s) && JobsOk(s) && PermitsOk(s) && BoundOk(s) && LeasesOk(s)
  }

  // ---------------------------------------------------------------- runs

  /** Actions that are not enabled are passed over. */
  ghost function Run(s: System, actions: seq<Action>): System {
    if actions == [] then s else Next(Run(s, actions[..|actions| - 1]), actions[|actions| - 1])
  }

  lemma {:induction false} RunConcat(s: System, first: seq<Action>, second: seq<Action>)
    ensures Run(s, first + second) == Run(Run(s, first), second)
    decreases |second|
  {
    if second == [] {
      assert first + second == first;
    } else {
      var both, init := first + second, second[..|second| - 1];
      RunConcat(s, first, init);
      assert both[..|both| - 1] == first + init;
    }
  }
}
