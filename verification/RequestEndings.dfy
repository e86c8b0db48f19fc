/**
 How a request ends, read off the steps of the run: the first cause that ends it gives its status and its error, unless
 something raises later. A cancel only counts if nothing has written over it since: starting the runner, the grant of
 the native request and every partial response set the status anew.
 */
module RequestEndings {
  import opened Wrappers
  import opened RequestModel
  import opened RequestAdmission
  import opened RequestSystem
  import opened RequestSafety
  import opened RequestTheorems

  /** The action is a step of this request, and it is taken. */
  ghost predicate Steps(s: System, a: Action, id: RequestId) {
    a.Take? && a.id == id && WellFormed(s) && Enabled(s, a)
  }

  /** A cancel was asked for, and nothing has set the status since. */
  ghost predicate Asked(s: System, actions: seq<Action>, id: RequestId) {
    actions != [] &&
    var init, last := actions[..|actions| - 1], actions[|actions| - 1];
    if !Steps(Run(s, init), last, id) then Asked(s, init, id)
    else
      match last.step
      case AskCancel => true
      case Start => false
      case Accept(_) => false
      case Receive(m, _) => !m.kind.PartialResponse? && Asked(s, init, id)
      case _ => Asked(s, init, id)
  }

  datatype End = Undecided | Decided(status: Status, error: Option<ErrorCode>)

  /** What a step decides about the end of its request, from what was received and whether a cancel counts. */
  ghost function Decides(limits: Limits, job: Job, step: Step, asked: bool): End {
    match step
    case Acquire => if asked then Decided(Cancelled, None) else Undecided
    case Refuse(code) => Decided(Failed, Some(code))
    case CrashSubmitting => Decided(Failed, Some(INTERNAL_ERROR))
    case Receive(m, _) =>
      if !m.kind.Response? || Bytes(job.received) + m.size > limits.maxResponseBytes then Undecided
      else if job.query.mode.Normalized? && job.query.normalizer.None? && !job.query.versioned
        && !job.query.allowFallback
      then Decided(Failed, Some(NORMALIZER_NOT_AVAILABLE))
      else Decided(Completed, None)
    case Fail(code) =>
      if asked || code == CANCELLED then Decided(Cancelled, Some(CANCELLED))
      else Decided(if code == TIMEOUT then TimedOut else Failed, Some(code))
    case Stop =>
      if Bytes(job.received) > limits.maxResponseBytes then Decided(Failed, Some(RESPONSE_TOO_LARGE))
      else Decided(TimedOut, Some(TIMEOUT))
    case Release(crashes) =>
      if crashes || job.phase == Releasing(true) then Decided(Failed, Some(INTERNAL_ERROR)) else Undecided
    case CrashReleasing => Decided(Failed, Some(INTERNAL_ERROR))
    case _ => Undecided
  }

  /** The last decision of the run. */
  ghost function Ending(s: System, actions: seq<Action>, id: RequestId): End {
    if actions == [] then Undecided
    else
      var init, last := actions[..|actions| - 1], actions[|actions| - 1];
      var before := Run(s, init);
      if !Steps(before, last, id) then Ending(s, init, id)
      else
        var decided := Decides(before.limits, before.jobs[id], last.step, Asked(s, init, id));
        if decided.Decided? then decided else Ending(s, init, id)
  }

  /** A record shows a cancel, or how it ended. */
  ghost predicate Shows(r: Record, asked: bool, end: End) {
    && (r.status.InFlight() ==> (r.status.Cancelling? <==> asked))
    && (r.status.Complete() <==> end.Decided?)
    && (end.Decided? ==> r.status == end.status && r.error == end.error)
  }

  function AskedAfter(step: Step, asked: bool): bool {
    match step
    case AskCancel => true
    case Start => false
    case Accept(_) => false
    case Receive(m, _) => !m.kind.PartialResponse? && asked
    case _ => asked
  }

  lemma StepShows(limits: Limits, now: int, job: Job, step: Step, asked: bool, end: End)
    requires JobOk(limits, job) && CanStep(now, job, step) && Shows(job.record, asked, end)
    ensures var decided := Decides(limits, job, step, asked);
            Shows(After(limits, job, step).record, AskedAfter(step, asked), if decided.Decided? then decided else end)
  {
    hide FromMessages, FromTable, Partials, StreamOk, ReceiveMessage, Bytes;
    if step.Receive? {
      ReceiveShows(limits, job, step.message, step.stored, asked, end);
    }
  }

  lemma ReceiveShows(limits: Limits, job: Job, m: Message, stored: Option<string>, asked: bool, end: End)
    requires JobOk(limits, job) && job.phase.Consuming? && Shows(job.record, asked, end)
    ensures var decided := Decides(limits, job, Receive(m, stored), asked);
            Shows(ReceiveMessage(limits, job, m, stored).record, !m.kind.PartialResponse? && asked,
                  if decided.Decided? then decided else end)
  {
    hide Finalize, FromMessages, FromTable, Answered, Bytes, Partials, Open, Overflowed, StreamOk;
    var r := Complete(Append(job.record, m));
    if m.kind.Response? {
      FinalStatus(limits, job.query, r, stored);
    }
  }

  /** Finalization fails a request that has no normalizer, and otherwise leaves it completed, also when it raises. */
  lemma FinalStatus(limits: Limits, q: Query, r: Record, stored: Option<string>)
    requires r.status.Completed? && r.error.None?
    ensures var r' := Finalize(limits, q, r, stored).record;
            if Unavailable(q) then r'.status.Failed? && r'.error == Some(NORMALIZER_NOT_AVAILABLE)
            else r'.status.Completed? && r'.error.None?
  {
  }

  lemma NextShows(s: System, a: Action, id: RequestId, asked: bool, end: End)
    requires Inv(s) && id < |s.jobs| && Shows(s.jobs[id].record, asked, end)
    ensures id < |Next(s, a).jobs|
    ensures var decided := if Steps(s, a, id) then Decides(s.limits, s.jobs[id], a.step, asked) else Undecided;
            Shows(Next(s, a).jobs[id].record, if Steps(s, a, id) then AskedAfter(a.step, asked) else asked,
                  if decided.Decided? then decided else end)
  {
    hide JobOk, PermitsOk, BoundOk, LeasesOk, TryRegister, Sweep, After, Decides, AskedAfter, Shows;
    if Steps(s, a, id) {
      assert JobOk(s.limits, s.jobs[id]);
      StepShows(s.limits, s.now, s.jobs[id], a.step, asked, end);
    }
  }

  /** A request that has just been registered. */
  lemma FirstShows(s: System, a: Action, id: RequestId)
    requires Inv(s) && |s.jobs| <= id < |Next(s, a).jobs|
    ensures Shows(Next(s, a).jobs[id].record, false, Undecided) && !Steps(s, a, id)
  {
    hide JobOk, PermitsOk, BoundOk, LeasesOk, TryRegister, Sweep, After;
  }

  lemma {:induction false} NotThere(s: System, actions: seq<Action>, id: RequestId)
    requires Inv(s) && id >= |Run(s, actions).jobs|
    ensures !Asked(s, actions, id) && Ending(s, actions, id) == Undecided
  {
    hide Inv, Next;
    if actions != [] {
      var init, last := actions[..|actions| - 1], actions[|actions| - 1];
      RunKeeps(s, init);
      MoreJobs(Run(s, init), last);
      NotThere(s, init, id);
    }
  }

  lemma {:induction false} RunShows(s: System, actions: seq<Action>, id: RequestId)
    requires Inv(s) && s.jobs == [] && id < |Run(s, actions).jobs|
    ensures Shows(Run(s, actions).jobs[id].record, Asked(s, actions, id), Ending(s, actions, id))
  {
    hide Inv, Next, Shows, Decides, Steps;
    if actions != [] {
      var init, last := actions[..|actions| - 1], actions[|actions| - 1];
      var before := Run(s, init);
      RunKeeps(s, init);
      if id < |before.jobs| {
        RunShows(s, init, id);
        NextShows(before, last, id, Asked(s, init, id), Ending(s, init, id));
      } else {
        NotThere(s, init, id);
        FirstShows(before, last, id);
      }
    }
  }

  /**
   In every reachable state a request is complete exactly when a step of the run has decided its end, and its status and
   error are those of the last decision; until then it shows CANCELLING exactly when a cancel counts.
   */
  lemma EndingsTellWhy(limits: Limits, now: int, actions: seq<Action>, id: RequestId)
    requires limits.maxResponseBytes >= 0 && id < |Reached(limits, now, actions).jobs|
    ensures var r := Reached(limits, now, actions).jobs[id].record;
            var end := Ending(Initial(limits, now), actions, id);
            && (r.status.Complete() <==> end.Decided?)
            && (end.Decided? ==> r.status == end.status && r.error == end.error)
            && (r.status.InFlight() ==> (r.status.Cancelling? <==> Asked(Initial(limits, now), actions, id)))
  {
    hide Run, Asked, Ending, Inv;
    InitialOk(limits, now);
    RunShows(Initial(limits, now), actions, id);
  }

  /** A request that is admitted, asked to be cancelled, and started. */
  const FORGOTTEN: seq<Action> :=
    [Submit(PLAIN, 60, 600), Action.Take(0, AdmitQuota), Action.Take(0, AskCancel), Action.Take(0, Start)]

  lemma ForgottenRuns(limits: Limits)
    requires limits.maxConcurrent >= 1
    ensures var job := Job(Cancel(NewRecord(0, 60, 600)), PLAIN, Launched, NOTHING, []);
            && Reached(limits, 0, FORGOTTEN[..3]) == Alone(limits, job, limits.maxConcurrent, {}, [])
            && Reached(limits, 0, FORGOTTEN) == Next(Alone(limits, job, limits.maxConcurrent, {}, []), FORGOTTEN[3])
  {
    hide Run, Next, TryRegister;
    var run, s0, free := FORGOTTEN, Initial(limits, 0), limits.maxConcurrent;
    var job := Job(NewRecord(0, 60, 600), PLAIN, Admitting, NOTHING, []);
    assert run[..1] == [] + [run[0]] && run[..2] == run[..1] + [run[1]] && run[..3] == run[..2] + [run[2]];
    assert run == run[..3] + [run[3]];
    RunNone(s0);
    RunOne(s0, [], run[0]);
    FirstRequest(limits);
    RunOne(s0, run[..1], run[1]);
    AloneTakes(limits, job, free, {}, [], AdmitQuota);
    RunOne(s0, run[..2], run[2]);
    AloneTakes(limits, job.(phase := Launched), free, {}, [], AskCancel);
    RunOne(s0, run[..3], run[3]);
  }

  /**
   Asked for between admission and the start of its runner, a cancel is forgotten: the request is QUEUED and goes on.
   */
  lemma CancelIsForgotten(limits: Limits)
    requires limits.maxConcurrent >= 1 && limits.maxResponseBytes >= 0
    ensures var before, after := Reached(limits, 0, FORGOTTEN[..3]), Reached(limits, 0, FORGOTTEN);
            && |before.jobs| == 1 && before.jobs[0].record.status.Cancelling?
            && |after.jobs| == 1 && after.jobs[0].record.status.Queued?
            && !Asked(Initial(limits, 0), FORGOTTEN, 0)
  {
    hide Run, Next, Asked, Ending, Inv, Reached;
    var cancelled := Job(Cancel(NewRecord(0, 60, 600)), PLAIN, Launched, NOTHING, []);
    ForgottenRuns(limits);
    AloneTakes(limits, cancelled, limits.maxConcurrent, {}, [], Start);
    EndingsTellWhy(limits, 0, FORGOTTEN, 0);
  }
}
