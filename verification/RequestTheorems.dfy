/** What holds of requests over every interleaving of submissions, runners, cancellations and sweeps. */
module RequestTheorems {
  import opened Wrappers
  import opened RequestModel
  import opened RequestAdmission
  import opened RequestSystem
  import opened RequestSafety

  ghost function Reached(limits: Limits, now: int, actions: seq<Action>): System {
    Run(Initial(limits, now), actions)
  }

  lemma ReachedOk(limits: Limits, now: int, actions: seq<Action>)
    requires limits.maxResponseBytes >= 0
    ensures Inv(Reached(limits, now, actions)) && Reached(limits, now, actions).limits == limits
  {
    InitialOk(limits, now);
    RunKeeps(Initial(limits, now), actions);
  }

  // ------------------------------------------------------- admission and leases

  /** Leases that were granted and not yet released. */
  function Outstanding(s: System): set<Lease> {
    set t <- s.granted | t !in s.released
  }

  ghost function Held(jobs: seq<Job>): set<Lease> {
    set j <- jobs | j.phase.Leased() && j.record.lease.Some? :: j.record.lease.value
  }

  lemma {:induction false} HeldIsBounded(jobs: seq<Job>)
    ensures |Held(jobs)| <= Holders(jobs)
  {
    if jobs != [] {
      var init, last := jobs[..|jobs| - 1], jobs[|jobs| - 1];
      HeldIsBounded(init);
      assert jobs == init + [last];
      if last.phase.Leased() && last.record.lease.Some? {
        assert Held(jobs) == Held(init) + {last.record.lease.value};
      } else {
        assert Held(jobs) == Held(init);
      }
    }
  }

  lemma {:induction false} SubsetSmaller<T>(a: set<T>, b: set<T>)
    requires a <= b
    ensures |a| <= |b|
  {
    if a != {} {
      var x :| x in a;
      SubsetSmaller(a - {x}, b - {x});
    }
  }

  /** The store never has more requests in flight, nor the backend more leases out, than configured. */
  lemma AdmissionIsBounded(limits: Limits, now: int, actions: seq<Action>)
    requires limits.maxResponseBytes >= 0
    ensures var s := Reached(limits, now, actions);
            && (forall k | 0 <= k < |s.registered| :: s.registered[k] < |s.jobs|)
            && InFlightCount(Entries(s.jobs, s.registered)) <= limits.maxConcurrent + limits.maxQueued
            && |Outstanding(s)| <= limits.maxConcurrent
  {
    var s := Reached(limits, now, actions);
    ReachedOk(limits, now, actions);
    HeldIsBounded(s.jobs);
    OutstandingAreHeld(s);
    SubsetSmaller(Outstanding(s), Held(s.jobs));
  }

  lemma OutstandingAreHeld(s: System)
    requires LeasesOk(s)
    ensures Outstanding(s) <= Held(s.jobs)
  {
    forall t <- Outstanding(s) ensures t in Held(s.jobs) {
      var i :| 0 <= i < |s.jobs| && Holds(s.jobs[i], t);
      assert s.jobs[i] in s.jobs;
    }
  }

  ghost predicate HeldBySome(s: System, t: Lease) {
    exists i :: 0 <= i < |s.jobs| && Holds(s.jobs[i], t)
  }

  lemma {:induction false} OccursOnce(released: seq<Lease>, t: Lease)
    requires forall i, j | 0 <= i < j < |released| :: released[i] != released[j]
    ensures multiset(released)[t] == if t in released then 1 else 0
  {
    if released != [] {
      var init, last := released[..|released| - 1], released[|released| - 1];
      OccursOnce(init, t);
      assert released == init + [last] && last !in init;
    }
  }

  /** A granted lease is released exactly once, by the time no runner has it any more. */
  lemma ReleasedExactlyOnce(limits: Limits, now: int, actions: seq<Action>, t: Lease)
    requires limits.maxResponseBytes >= 0
    ensures var s := Reached(limits, now, actions);
            multiset(s.released)[t] == if t in s.granted && !HeldBySome(s, t) then 1 else 0
  {
    var s := Reached(limits, now, actions);
    ReachedOk(limits, now, actions);
    OccursOnce(s.released, t);
    if HeldBySome(s, t) {
      var i :| 0 <= i < |s.jobs| && Holds(s.jobs[i], t);
      assert LeaseOk(s, s.jobs[i]);
    }
  }

  // --------------------------------------------------- complete means complete

  lemma NextJob(s: System, a: Action, id: RequestId)
    requires Inv(s) && id < |s.jobs|
    ensures var s' := Next(s, a);
            && id < |s'.jobs|
            && (s.jobs[id].record.status.Complete() ==> s'.jobs[id].record.status.Complete())
            && (s.jobs[id].phase.Done? ==> s'.jobs[id] == s.jobs[id])
  {
    hide JobOk, PermitsOk, BoundOk, LeasesOk, TryRegister, Sweep;
    if Enabled(s, a) && a.Take? {
      assert JobOk(s.limits, s.jobs[a.id]);
      StepFrames(s.limits, s.now, s.jobs[a.id], a.step);
      if s.jobs[a.id].phase.Done? {
        DoneIsComplete(s.limits, s.jobs[a.id]);
      }
    }
  }

  lemma DoneIsComplete(limits: Limits, job: Job)
    requires JobOk(limits, job) && job.phase.Done?
    ensures job.record.status.Complete()
  {
  }

  /** A complete record stays complete, and a finished request never changes again. */
  lemma {:induction false} CompleteIsAbsorbing(s: System, actions: seq<Action>, id: RequestId)
    requires Inv(s) && id < |s.jobs|
    ensures var s' := Run(s, actions);
            && id < |s'.jobs|
            && (s.jobs[id].record.status.Complete() ==> s'.jobs[id].record.status.Complete())
            && (s.jobs[id].phase.Done? ==> s'.jobs[id] == s.jobs[id])
  {
    hide Inv, Next;
    if actions != [] {
      var init := actions[..|actions| - 1];
      CompleteIsAbsorbing(s, init, id);
      RunKeeps(s, init);
      NextJob(Run(s, init), actions[|actions| - 1], id);
    }
  }

  // ------------------------------------------------------------------ replies

  /** Something raised after the final result had been stored. */
  predicate CrashedLate(r: Record) {
    r.final.Some? && r.error == Some(INTERNAL_ERROR)
  }

  /** A raise of the release, or of what follows it, after the final result was stored. */
  predicate RaisesLate(job: Job, step: Step) {
    job.phase == Releasing(false) && job.record.final.Some? && (step.CrashReleasing? || step == Release(true))
  }

  /** Nothing else makes a record look so. */
  lemma LateCrashStep(limits: Limits, now: int, job: Job, step: Step)
    requires JobOk(limits, job) && CanStep(now, job, step)
    ensures CrashedLate(After(limits, job, step).record) <==> CrashedLate(job.record) || RaisesLate(job, step)
  {
    hide FromMessages, FromTable, Answered, Bytes, Partials, Open, Overflowed, StreamOk, ReceiveMessage;
    if step.Receive? {
      ReceivedNotLate(limits, job, step.message, step.stored);
    }
  }

  lemma ReceivedNotLate(limits: Limits, job: Job, m: Message, stored: Option<string>)
    requires JobOk(limits, job) && job.phase.Consuming?
    ensures !CrashedLate(ReceiveMessage(limits, job, m, stored).record) && !CrashedLate(job.record)
  {
    hide Finalize, FromMessages, FromTable, Answered, Bytes, Partials, Open, Overflowed, StreamOk;
    ReceiveKeeps(limits, job, m, stored);
  }

  /** This action of the run is such a raise, of this request. */
  predicate LateRaise(s: System, a: Action, id: RequestId) {
    a.Take? && a.id == id && id < |s.jobs| && Enabled(s, a) && RaisesLate(s.jobs[id], a.step)
  }

  /** Some action of the run is. */
  ghost predicate RaisedLate(s: System, actions: seq<Action>, id: RequestId) {
    actions != [] &&
    var init, last := actions[..|actions| - 1], actions[|actions| - 1];
    RaisedLate(s, init, id) || LateRaise(Run(s, init), last, id)
  }

  lemma LateCrashNext(s: System, a: Action, id: RequestId)
    requires Inv(s) && id < |Next(s, a).jobs|
    ensures CrashedLate(Next(s, a).jobs[id].record) <==>
              (id < |s.jobs| && CrashedLate(s.jobs[id].record)) || LateRaise(s, a, id)
  {
    hide JobOk, PermitsOk, BoundOk, LeasesOk, TryRegister, Sweep, After, RaisesLate;
    if Enabled(s, a) && a.Take? {
      assert JobOk(s.limits, s.jobs[a.id]);
      LateCrashStep(s.limits, s.now, s.jobs[a.id], a.step);
    }
  }

  lemma {:induction false} LateCrashRun(s: System, actions: seq<Action>, id: RequestId)
    requires Inv(s) && s.jobs == [] && id < |Run(s, actions).jobs|
    ensures CrashedLate(Run(s, actions).jobs[id].record) <==> RaisedLate(s, actions, id)
  {
    hide Inv, Next, CrashedLate, LateRaise;
    if actions != [] {
      var init, last := actions[..|actions| - 1], actions[|actions| - 1];
      var before := Run(s, init);
      RunKeeps(s, init);
      LateCrashNext(before, last, id);
      if id < |before.jobs| {
        LateCrashRun(s, init, id);
      } else {
        NeverLate(s, init, id);
      }
    }
  }

  /** A request that is not there yet has not raised. */
  lemma {:induction false} NeverLate(s: System, actions: seq<Action>, id: RequestId)
    requires Inv(s) && id >= |Run(s, actions).jobs|
    ensures !RaisedLate(s, actions, id)
  {
    hide Inv, Next;
    if actions != [] {
      var init, last := actions[..|actions| - 1], actions[|actions| - 1];
      RunKeeps(s, init);
      MoreJobs(Run(s, init), last);
      NeverLate(s, init, id);
    }
  }

  lemma MoreJobs(s: System, a: Action)
    requires Inv(s)
    ensures |s.jobs| <= |Next(s, a).jobs|
  {
    hide JobOk, PermitsOk, BoundOk, LeasesOk, TryRegister, Sweep, After;
  }

  /** The two reply builders agree on a finished job unless it crashed late. */
  lemma RepliesAgree(limits: Limits, job: Job)
    requires JobOk(limits, job) && job.phase.Done?
    ensures CompletedResult(job.record, job.outcome) == HandleSnapshot(job.record) <==> !CrashedLate(job.record)
  {
    hide FromMessages, FromTable, Answered, Bytes, Partials, Open, Overflowed;
  }

  /**
   The caller that waited and everybody who polls later, in any further run, are told the same, exactly unless
   in the run the release, or what follows it, raised after the result was stored.
   */
  lemma PollsAgree(limits: Limits, now: int, actions: seq<Action>, id: RequestId, later: seq<Action>)
    requires limits.maxResponseBytes >= 0
    requires var s := Reached(limits, now, actions); id < |s.jobs| && s.jobs[id].phase.Done?
    ensures var s, s' := Reached(limits, now, actions), Reached(limits, now, actions + later);
            && id < |s'.jobs|
            && (HandleSnapshot(s'.jobs[id].record) == CompletedResult(s.jobs[id].record, s.jobs[id].outcome) <==>
                  !RaisedLate(Initial(limits, now), actions, id))
  {
    hide JobOk, CompletedResult, HandleSnapshot, LeasesOk, PermitsOk, BoundOk, Next, CrashedLate, RaisedLate;
    var s := Reached(limits, now, actions);
    InitialOk(limits, now);
    ReachedOk(limits, now, actions);
    RunConcat(Initial(limits, now), actions, later);
    CompleteIsAbsorbing(s, later, id);
    RepliesAgree(limits, s.jobs[id]);
    LateCrashRun(Initial(limits, now), actions, id);
  }

  /** Some step of one job's path is a late raise. */
  ghost predicate RaisedOnPath(limits: Limits, job: Job, path: seq<Moment>) {
    path != [] &&
    var init, last := path[..|path| - 1], path[|path| - 1];
    RaisedOnPath(limits, job, init) || RaisesLate(Follow(limits, job, init), last.step)
  }

  lemma {:induction false} LateCrashPath(limits: Limits, job: Job, path: seq<Moment>)
    requires JobOk(limits, job) && CanFollow(limits, job, path) && limits.maxResponseBytes >= 0
    requires !CrashedLate(job.record)
    ensures CrashedLate(Follow(limits, job, path).record) <==> RaisedOnPath(limits, job, path)
  {
    hide JobOk, After, CrashedLate, RaisesLate;
    if path != [] {
      var init, last := path[..|path| - 1], path[|path| - 1];
      LateCrashPath(limits, job, init);
      FollowKeeps(limits, job, init);
      LateCrashStep(limits, last.now, Follow(limits, job, init), last.step);
    }
  }

  // ---------------------------------------------- a run in which they disagree

  lemma RunOne(s: System, actions: seq<Action>, a: Action)
    ensures Run(s, actions + [a]) == Next(Run(s, actions), a)
  {
    assert (actions + [a])[..|actions|] == actions;
  }

  const PLAIN: Query := Query(Canonical, false, false, false, 100, None)

  /** One request that is admitted, granted a lease and answered by its first message. */
  function OneRequest(m: Message, lease: Lease): seq<Action> {
    [Submit(PLAIN, 60, 600), Action.Take(0, AdmitQuota), Action.Take(0, Start), Action.Take(0, Acquire),
     Action.Take(0, Accept(lease)), Action.Take(0, Receive(m, None))]
  }

  lemma FirstSubmit(limits: Limits, query: Query, r: Record)
    requires limits.maxConcurrent >= 1
    ensures Register(Initial(limits, 0), query, r) ==
              Initial(limits, 0).(jobs := [Job(r, query, Admitting, NOTHING, [])], registered := [0])
  {
    var e := EntryOf(0, r);
    var none: seq<Entry> := [];
    assert none + [e] == [e] && Ids(none) == {};
    assert InFlightCount(none) == 0;
    WithoutNone([e]);
    assert Evict([e]) == [e];
    assert Entries([], []) == none;
    assert IdsInOrder([e]) == [0];
  }

  /** The only request of a system, and how many permits, leases and releases there are. */
  function Alone(limits: Limits, job: Job, permits: int, granted: set<Lease>, released: seq<Lease>): System {
    System(limits, 0, [job], [0], permits, granted, released)
  }

  lemma AloneTakes(limits: Limits, job: Job, permits: int, granted: set<Lease>, released: seq<Lease>, step: Step)
    requires CanStep(0, job, step) && !step.DenyQuota?
    requires (step.Acquire? ==> permits > 0) && (step.Accept? ==> step.lease !in granted)
    ensures var s := Alone(limits, job, permits, granted, released);
            var job' := After(limits, job, step);
            Next(s, Action.Take(0, step)) ==
              Alone(limits, job', permits + HeldBy(job) - HeldBy(job'),
                    if step.Accept? then granted + {step.lease} else granted,
                    if (step.Release? || step.CrashReleasing?) && job.record.lease.Some?
                    then released + [job.record.lease.value] else released)
  {
    hide After, HeldBy;
    var s := Alone(limits, job, permits, granted, released);
    assert [job][0 := After(limits, job, step)] == [After(limits, job, step)];
    assert Enabled(s, Action.Take(0, step));
  }

  /** Up to its response the request holds the only lease there is. */
  lemma OneRequestRuns(limits: Limits, m: Message, lease: Lease)
    requires limits.maxConcurrent >= 1
    ensures Reached(limits, 0, OneRequest(m, lease)[..5]) ==
              Alone(limits, Job(MarkSent(Enqueue(NewRecord(0, 60, 600)), lease), PLAIN, Consuming, NOTHING, []),
                    limits.maxConcurrent - 1, {lease}, [])
  {
    hide Run, Next, TryRegister;
    var run := OneRequest(m, lease);
    var s0 := Initial(limits, 0);
    var job := Job(NewRecord(0, 60, 600), PLAIN, Admitting, NOTHING, []);
    var free := limits.maxConcurrent;
    assert run[..1] == [] + [run[0]] && run[..2] == run[..1] + [run[1]] && run[..3] == run[..2] + [run[2]];
    assert run[..4] == run[..3] + [run[3]] && run[..5] == run[..4] + [run[4]];
    RunNone(s0);
    RunOne(s0, [], run[0]);
    FirstRequest(limits);
    RunOne(s0, run[..1], run[1]);
    AloneTakes(limits, job, free, {}, [], AdmitQuota);
    RunOne(s0, run[..2], run[2]);
    AloneTakes(limits, job.(phase := Launched), free, {}, [], Start);
    RunOne(s0, run[..3], run[3]);
    AloneTakes(limits, job.(phase := Waiting, record := Enqueue(job.record)), free, {}, [], Acquire);
    RunOne(s0, run[..4], run[4]);
    AloneTakes(limits, job.(phase := Submitting, record := Enqueue(job.record)), free - 1, {}, [], Accept(lease));
    var none: set<Lease> := {};
    assert none + {lease} == {lease};
  }

  lemma RunNone(s: System)
    ensures Run(s, []) == s
  {
  }

  lemma FirstRequest(limits: Limits)
    requires limits.maxConcurrent >= 1
    ensures Next(Initial(limits, 0), Submit(PLAIN, 60, 600)) ==
              Alone(limits, Job(NewRecord(0, 60, 600), PLAIN, Admitting, NOTHING, []), limits.maxConcurrent, {}, [])
  {
    FirstSubmit(limits, PLAIN, NewRecord(0, 60, 600));
  }

  /** What receiving the one message makes of the job. */
  lemma OneAnswer(limits: Limits, job: Job, m: Message)
    requires job.query == PLAIN && job.record.messages == [] && job.record.byteCount == 0
    requires m.kind.Response? && m.size <= limits.maxResponseBytes
             && limits.size(MessageList([m])) <= limits.inlineBytes
    ensures var answered := ReceiveMessage(limits, job, m, None);
            && answered.phase == Releasing(false) && answered.record.final.Some?
               && answered.record.final.value.error == None
            && answered.record.lease == job.record.lease
  {
    assert Results([m]) == [m] by {
      assert [m][..0] == [];
    }
    var none: seq<Message> := [];
    assert none + [m] == [m];
  }

  /** Its response is sent inline, and then its release raises: the caller hears of an error, the polls do not. */
  lemma LateCrashHappens(limits: Limits, m: Message, lease: Lease)
    requires limits.maxConcurrent >= 1 && m.kind.Response? && m.size <= limits.maxResponseBytes
    requires limits.size(MessageList([m])) <= limits.inlineBytes
    ensures var run := OneRequest(m, lease) + [Action.Take(0, CrashReleasing)];
            var s := Reached(limits, 0, run);
            && |s.jobs| == 1 && s.jobs[0].phase.Done? && RaisedLate(Initial(limits, 0), run, 0)
            && CompletedResult(s.jobs[0].record, s.jobs[0].outcome).error == Some(INTERNAL_ERROR)
            && HandleSnapshot(s.jobs[0].record).error == None
  {
    hide Run, Next, ReceiveMessage, RaisedLate;
    var run := OneRequest(m, lease);
    var s0 := Initial(limits, 0);
    var job := Job(MarkSent(Enqueue(NewRecord(0, 60, 600)), lease), PLAIN, Consuming, NOTHING, []);
    var free := limits.maxConcurrent - 1;
    OneRequestRuns(limits, m, lease);
    OneAnswer(limits, job, m);
    assert run == run[..5] + [run[5]];
    RunOne(s0, run[..5], run[5]);
    AloneTakes(limits, job, free, {lease}, [], Receive(m, None));
    var answered := ReceiveMessage(limits, job, m, None);
    RunOne(s0, run, Action.Take(0, CrashReleasing));
    AloneTakes(limits, answered, free, {lease}, [], CrashReleasing);
    InitialOk(limits, 0);
    LateCrashRun(s0, run + [Action.Take(0, CrashReleasing)], 0);
  }

  // ------------------------------------------------------------------ results

  /** A completed record with a result carries data or an artifact, not both, and no raw messages. */
  lemma CompletedCarriesOne(limits: Limits, now: int, actions: seq<Action>, id: RequestId)
    requires limits.maxResponseBytes >= 0 && id < |Reached(limits, now, actions).jobs|
    ensures var job := Reached(limits, now, actions).jobs[id];
            && (job.phase.Done? && job.record.status.Completed? ==> job.record.final.Some?)
            && (job.record.status.Completed? && job.record.final.Some? ==>
                  && (job.record.final.value.data.Some? <==> job.record.final.value.artifact.None?)
                  && job.record.messages == [])
  {
    var s := Reached(limits, now, actions);
    ReachedOk(limits, now, actions);
    OneResult(limits, s.jobs[id]);
  }

  lemma OneResult(limits: Limits, job: Job)
    requires JobOk(limits, job)
    ensures job.phase.Done? && job.record.status.Completed? ==> job.record.final.Some?
    ensures job.record.status.Completed? && job.record.final.Some? ==>
              && (job.record.final.value.data.Some? <==> job.record.final.value.artifact.None?)
              && job.record.messages == []
  {
    hide FromMessages, FromTable, Answered, Bytes, Partials, Open, Overflowed;
  }

  /**
   The accounts of a request are exact in every state, nothing is taken after a response or past the size limit, a
   COMPLETED record has had its only response as its last message, within the limit, and a final result is made from
   everything received.
   */
  lemma AccountsAreExact(limits: Limits, now: int, actions: seq<Action>, id: RequestId)
    requires limits.maxResponseBytes >= 0 && id < |Reached(limits, now, actions).jobs|
    ensures var job := Reached(limits, now, actions).jobs[id];
            && job.record.byteCount == Bytes(job.received)
            && job.record.eventCount == |job.received| && job.record.partialCount == Partials(job.received)
            && (job.record.final.Some? ==>
                  && Answered(job.received) && Bytes(job.received) <= limits.maxResponseBytes
                  && job.record.itemErrors == limits.itemErrors(job.received)
                  && (job.record.final.value.error.None? ==>
                        FromMessages(limits, job.query, job.record.final.value, job.received) ||
                        FromTable(limits, job.query, job.record.final.value, job.received)))
            && StreamOk(limits, job.received)
            && (job.record.status.Completed? ==>
                  Answered(job.received) && Bytes(job.received) <= limits.maxResponseBytes)
  {
    var s := Reached(limits, now, actions);
    ReachedOk(limits, now, actions);
    AccountsOf(limits, s.jobs[id]);
  }

  lemma AccountsOf(limits: Limits, job: Job)
    requires JobOk(limits, job)
    ensures Tallied(job)
    ensures job.record.final.Some? ==> Delivered(limits, job)
    ensures StreamOk(limits, job.received)
    ensures job.record.status.Completed? ==> Answered(job.received) && Bytes(job.received) <= limits.maxResponseBytes
  {
    hide FromMessages, FromTable, Bytes, Partials;
  }
}
