/** Each step of the request system keeps its invariant. */
module RequestSafety {
  import opened Wrappers
  import opened RequestModel
  import opened RequestAdmission
  import opened RequestSystem

  // ------------------------------------------------------------------ jobs

  lemma ReceivedSnoc(messages: seq<Message>, m: Message)
    ensures (messages + [m])[..|messages|] == messages
    ensures Bytes(messages + [m]) == Bytes(messages) + m.size
    ensures Partials(messages + [m]) == Partials(messages) + if m.kind.PartialResponse? then 1 else 0
    ensures NoResponse(messages) && !m.kind.Response? ==> NoResponse(messages + [m])
    ensures NoResponse(messages) && m.kind.Response? ==> Answered(messages + [m])
  {
    assert (messages + [m])[..|messages|] == messages;
  }

  /** A completed record as finalization finds it. */
  ghost predicate Ready(limits: Limits, job: Job, r: Record) {
    && Answered(job.received) && Bytes(job.received) <= limits.maxResponseBytes
    && r.messages == job.received && r.error.None? && r.final.None? && r.resultId.None? && r.status.Completed?
  }

  ghost predicate SameCounters(r: Record, r': Record) {
    && r'.byteCount == r.byteCount && r'.eventCount == r.eventCount && r'.partialCount == r.partialCount
    && r'.lease == r.lease && r'.createdAt == r.createdAt && r'.deadline == r.deadline && r'.expiresAt == r.expiresAt
    && (r.status.Completed? ==> r'.status.Complete())
  }

  /** It raises and leaves the record as it was, or it delivers. */
  ghost predicate FinishOk(limits: Limits, job: Job, r: Record, f: Finish) {
    && SameCounters(r, f.record)
    && match f
       case Finished(r', o) => Delivered(limits, job.(record := r', outcome := o)) && Settled(r')
       case Raised(r') =>
         && r'.final.None? && r'.resultId.None? && r'.messages == job.received && r'.warnings == r.warnings
            && r'.error.None?
  }

  lemma MessagesFinish(limits: Limits, job: Job, r: Record, mode: Mode, warnings: seq<Warning>, stored: Option<string>)
    requires Ready(limits, job, r) && r.itemErrors == limits.itemErrors(job.received)
    requires mode == if job.query.mode.Normalized? then Canonical else job.query.mode
    requires (job.query.mode.Normalized? ==> Fallback(job.query)) && !Unavailable(job.query)
    requires warnings == if Fallback(job.query) then [NormalizerFallback] else []
    ensures FinishOk(limits, job, r, FinishMessages(limits, job.query, r, mode, warnings, stored))
  {
    hide Results, Answered, Bytes;
  }

  lemma TableFinishes(limits: Limits, job: Job, r: Record, table: Table, stored: Option<string>)
    requires Ready(limits, job, r) && r.itemErrors == limits.itemErrors(job.received)
    requires job.query.mode.Normalized? && r.warnings == []
    requires job.query.normalizer.Some? && job.query.normalizer.value(job.received) == Some(table)
    ensures FinishOk(limits, job, r, FinishTable(limits, job.query, r, table, stored))
  {
    hide Answered, Bytes;
  }

  lemma UnavailableFinishes(limits: Limits, job: Job, r: Record)
    requires Ready(limits, job, r) && r.itemErrors == limits.itemErrors(job.received)
    requires Unavailable(job.query) && r.warnings == []
    ensures FinishOk(limits, job, r, FinishUnavailable(r))
  {
    hide Answered, Bytes;
  }

  lemma FinalizeFinishes(limits: Limits, job: Job, r: Record, stored: Option<string>)
    requires Ready(limits, job, r) && r.warnings == []
    ensures FinishOk(limits, job, r, Finalize(limits, job.query, r, stored))
  {
    hide FinishMessages, FinishTable, FinishUnavailable, Delivered, Settled, Answered, Bytes;
    var q, r' := job.query, r.(itemErrors := limits.itemErrors(r.messages));
    assert SameCounters(r, r');
    if !q.mode.Normalized? {
      MessagesFinish(limits, job, r', q.mode, r'.warnings, stored);
    } else if q.normalizer.Some? {
      if q.normalizer.value(r'.messages).Some? {
        TableFinishes(limits, job, r', q.normalizer.value(r'.messages).value, stored);
      }
    } else if !q.versioned && !q.allowFallback {
      UnavailableFinishes(limits, job, r');
    } else {
      MessagesFinish(limits, job, r', Canonical, r'.warnings + [NormalizerFallback], stored);
    }
  }

  /** Delivery does not depend on where the runner is. */
  lemma DeliveredPhase(limits: Limits, a: Job, b: Job)
    requires a.query == b.query && a.received == b.received && a.record == b.record && a.outcome == b.outcome
    ensures Delivered(limits, a) ==> Delivered(limits, b)
  {
  }

  /** One more message after an open stretch. */
  lemma StreamSnoc(limits: Limits, messages: seq<Message>, m: Message)
    requires Open(limits, messages)
    ensures var more := messages + [m];
            && StreamOk(limits, more)
            && (if Bytes(more) > limits.maxResponseBytes then Overflowed(limits, more)
                else if m.kind.Response? then Answered(more) else Open(limits, more))
  {
    ReceivedSnoc(messages, m);
  }

  lemma ResponseKeeps(limits: Limits, job: Job, m: Message, stored: Option<string>)
    requires JobOk(limits, job) && job.phase.Consuming? && m.kind.Response?
    requires Append(job.record, m).byteCount <= limits.maxResponseBytes
    ensures JobOk(limits, ReceiveMessage(limits, job, m, stored))
  {
    hide Finalize, Delivered, Settled, Answered, Open, Overflowed, StreamOk, Bytes, Partials;
    ReceivedSnoc(job.received, m);
    StreamSnoc(limits, job.received, m);
    var r := Complete(Append(job.record, m));
    var job' := job.(received := job.received + [m]);
    FinalizeFinishes(limits, job', r, stored);
    var f := Finalize(limits, job.query, r, stored);
    if f.Finished? {
      DeliveredPhase(limits, job'.(record := f.record, outcome := f.outcome), ReceiveMessage(limits, job, m, stored));
    }
  }

  lemma MoreKeeps(limits: Limits, job: Job, m: Message)
    requires JobOk(limits, job) && job.phase.Consuming?
    requires Append(job.record, m).byteCount > limits.maxResponseBytes || !m.kind.Response?
    ensures JobOk(limits, ReceiveMessage(limits, job, m, None))
  {
    hide Finalize, Append, Collecting, Bytes, Partials, Answered, Open, Overflowed, StreamOk;
    StreamSnoc(limits, job.received, m);
    var job' := ReceiveMessage(limits, job, m, None);
    assert job'.record == Append(job.record, m) && job'.received == job.received + [m];
    CollectMore(limits, job, job', m);
  }

  lemma CollectMore(limits: Limits, job: Job, job': Job, m: Message)
    requires Collecting(limits, job) && Tallied(job)
    requires job'.record == Append(job.record, m) && job'.received == job.received + [m] && job'.outcome == job.outcome
    ensures Collecting(limits, job') && Tallied(job')
  {
    hide Bytes, Partials, NoResponse;
    ReceivedSnoc(job.received, m);
  }

  lemma ReceiveKeeps(limits: Limits, job: Job, m: Message, stored: Option<string>)
    requires JobOk(limits, job) && job.phase.Consuming?
    ensures JobOk(limits, ReceiveMessage(limits, job, m, stored))
  {
    hide JobOk, Finalize;
    if Append(job.record, m).byteCount <= limits.maxResponseBytes && m.kind.Response? {
      ResponseKeeps(limits, job, m, stored);
    } else {
      MoreKeeps(limits, job, m);
    }
  }

  lemma StepKeepsJob(limits: Limits, now: int, job: Job, step: Step)
    requires JobOk(limits, job) && CanStep(now, job, step) && limits.maxResponseBytes >= 0
    ensures JobOk(limits, After(limits, job, step))
  {
    if step.Receive? {
      ReceiveKeeps(limits, job, step.message, step.stored);
    } else if step.Release? || step.CrashReleasing? {
      ReleaseKeeps(limits, job, step);
    } else if step.AskCancel? {
      CancelKeeps(limits, job);
    }
  }

  lemma ReleaseKeeps(limits: Limits, job: Job, step: Step)
    requires JobOk(limits, job) && job.phase.Releasing? && (step.Release? || step.CrashReleasing?)
    ensures JobOk(limits, After(limits, job, step))
  {
    hide FromMessages, FromTable, Answered, Bytes, Partials;
  }

  lemma CancelKeeps(limits: Limits, job: Job)
    requires JobOk(limits, job)
    ensures JobOk(limits, After(limits, job, AskCancel))
  {
    hide FromMessages, FromTable, Answered, Bytes, Partials;
  }

  lemma {:induction false} FollowKeeps(limits: Limits, job: Job, path: seq<Moment>)
    requires JobOk(limits, job) && CanFollow(limits, job, path) && limits.maxResponseBytes >= 0
    ensures JobOk(limits, Follow(limits, job, path))
  {
    hide JobOk, After;
    if path != [] {
      var init, last := path[..|path| - 1], path[|path| - 1];
      FollowKeeps(limits, job, init);
      StepKeepsJob(limits, last.now, Follow(limits, job, init), last.step);
    }
  }

  // ----------------------------------------------------------- one step of one job

  /** What a step does to the lease. */
  function LeaseAfter(job: Job, step: Step): Option<Lease> {
    match step
    case Accept(lease) => Some(lease)
    case Release(_) => None
    case _ => job.record.lease
  }

  /** A step never takes a record back into flight, nor out of the complete statuses. */
  ghost predicate StepFrame(job: Job, step: Step, job': Job) {
    && job'.record.lease == LeaseAfter(job, step)
    && job'.record.createdAt == job.record.createdAt && job'.record.expiresAt == job.record.expiresAt
    && (job'.record.status.InFlight() ==> job.record.status.InFlight())
    && (job.record.status.Complete() ==> job'.record.status.Complete())
    && job.received <= job'.received && job'.query == job.query
    && (job'.phase.Leased() <==> step.Accept? || (job.phase.Leased() && !step.Release? && !step.CrashReleasing?))
    && ((step.Release? || step.CrashReleasing?) ==> job.phase.Leased() && job'.phase.Done?)
    && (job.phase.Done? ==> job'.phase.Done?)
  }

  lemma ReceiveFrame(limits: Limits, job: Job, m: Message, stored: Option<string>)
    requires JobOk(limits, job) && job.phase.Consuming?
    ensures StepFrame(job, Receive(m, stored), ReceiveMessage(limits, job, m, stored))
  {
    hide Finalize, Delivered, Settled, Answered, Open, Overflowed, StreamOk, Bytes, Partials;
    var r := Complete(Append(job.record, m));
    if Append(job.record, m).byteCount <= limits.maxResponseBytes && m.kind.Response? {
      ReceivedSnoc(job.received, m);
      StreamSnoc(limits, job.received, m);
      FinalizeFinishes(limits, job.(received := job.received + [m]), r, stored);
    }
  }

  /** What the phase tells about the status. */
  ghost predicate StatusFits(job: Job) {
    match job.phase
    case Admitting => job.record.status.InFlight()
    case Denied => job.record.status.InFlight()
    case Launched => job.record.status.InFlight()
    case Waiting => job.record.status.InFlight()
    case Submitting => job.record.status.InFlight()
    case Consuming => job.record.status.InFlight()
    case Stopping(_) => job.record.status.InFlight()
    case Releasing(_) => true
    case Done => job.record.status.Complete()
  }

  lemma StatusOf(limits: Limits, job: Job)
    requires JobOk(limits, job)
    ensures StatusFits(job)
  {
    hide Tallied, StreamOk, Open, Overflowed, Delivered;
  }

  lemma OtherFrames(limits: Limits, now: int, job: Job, step: Step)
    requires StatusFits(job) && CanStep(now, job, step) && !step.Receive?
    ensures StepFrame(job, step, After(limits, job, step))
  {
    hide ReceiveMessage;
  }

  lemma StepFrames(limits: Limits, now: int, job: Job, step: Step)
    requires JobOk(limits, job) && CanStep(now, job, step)
    ensures StepFrame(job, step, After(limits, job, step))
  {
    hide ReceiveMessage, JobOk, StepFrame;
    if step.Receive? {
      ReceiveFrame(limits, job, step.message, step.stored);
    } else {
      StatusOf(limits, job);
      OtherFrames(limits, now, job, step);
    }
  }

  // ------------------------------------------------------------- the whole system

  lemma {:induction false} HoldersUpdated(jobs: seq<Job>, id: nat, job: Job)
    requires id < |jobs|
    ensures Holders(jobs[id := job]) + HeldBy(jobs[id]) == Holders(jobs) + HeldBy(job)
    decreases |jobs|
  {
    var k := |jobs| - 1;
    if id < k {
      HoldersUpdated(jobs[..k], id, job);
      assert jobs[id := job][..k] == jobs[..k][id := job];
    } else {
      assert jobs[id := job][..k] == jobs[..k];
    }
  }

  lemma PermitsKept(s: System, id: RequestId, step: Step)
    requires Inv(s) && Enabled(s, Take(id, step))
    ensures PermitsOk(TakeStep(s, id, step))
  {
    hide JobOk, Holders, LeasesOk, BoundOk, ReceiveMessage;
    HoldersUpdated(s.jobs, id, After(s.limits, s.jobs[id], step));
    if step.Receive? {
      ReceiveFrame(s.limits, s.jobs[id], step.message, step.stored);
    }
  }

  lemma JobsKept(s: System, id: RequestId, step: Step)
    requires Inv(s) && Enabled(s, Take(id, step))
    ensures JobsOk(TakeStep(s, id, step))
  {
    hide JobOk, LeasesOk, BoundOk, After;
    StepKeepsJob(s.limits, s.now, s.jobs[id], step);
  }

  lemma {:induction false} FewerInFlight(a: seq<Entry>, b: seq<Entry>)
    requires |a| == |b| && forall k | 0 <= k < |a| :: b[k].status.InFlight() ==> a[k].status.InFlight()
    ensures InFlightCount(b) <= InFlightCount(a)
    decreases |a|
  {
    if a != [] {
      FewerInFlight(a[..|a| - 1], b[..|b| - 1]);
    }
  }

  lemma {:induction false} RemovedIds(ids: seq<RequestId>, id: RequestId)
    requires forall i, j | 0 <= i < j < |ids| :: ids[i] != ids[j]
    ensures var left := Removed(ids, id);
            && (forall x :: x in left <==> x in ids && x != id)
            && (forall i, j | 0 <= i < j < |left| :: left[i] != left[j])
  {
    if ids != [] {
      var init, last := ids[..|ids| - 1], ids[|ids| - 1];
      RemovedIds(init, id);
      assert ids == init + [last] && last !in init;
      var rest := Removed(init, id);
      forall i | 0 <= i < |rest| ensures rest[i] != last {
        assert rest[i] in rest;
      }
    }
  }

  lemma {:induction false} RemovedInFlight(jobs: seq<Job>, ids: seq<RequestId>, left: seq<RequestId>, id: RequestId)
    requires left == Removed(ids, id)
    requires forall k | 0 <= k < |ids| :: ids[k] < |jobs|
    ensures forall k | 0 <= k < |left| :: left[k] < |jobs|
    ensures InFlightCount(Entries(jobs, left)) <= InFlightCount(Entries(jobs, ids))
    decreases |ids|
  {
    if ids != [] {
      var init := ids[..|ids| - 1];
      var rest := Removed(init, id);
      RemovedInFlight(jobs, init, rest, id);
      assert Entries(jobs, ids)[..|init|] == Entries(jobs, init);
      if left != rest {
        assert Entries(jobs, left)[..|rest|] == Entries(jobs, rest);
      } else {
        assert rest + [] == rest;
      }
    }
  }

  lemma StoreKept(s: System, id: RequestId, step: Step)
    requires Inv(s) && Enabled(s, Take(id, step))
    ensures var s' := TakeStep(s, id, step); WellFormed(s') && BoundOk(s')
  {
    hide JobOk, LeasesOk, PermitsOk, After, InFlightCount, Removed;
    var s' := TakeStep(s, id, step);
    StepFrames(s.limits, s.now, s.jobs[id], step);
    if step.DenyQuota? {
      RemovedIds(s.registered, id);
      RemovedInFlight(s.jobs, s.registered, s'.registered, id);
      FewerInFlight(Entries(s.jobs, s'.registered), Entries(s'.jobs, s'.registered));
    } else {
      FewerInFlight(Entries(s.jobs, s.registered), Entries(s'.jobs, s'.registered));
    }
  }

  // ----------------------------------------------------------------- leases

  lemma OtherLeases(s: System, id: RequestId, step: Step, i: nat)
    requires Inv(s) && Enabled(s, Take(id, step)) && i < |s.jobs| && i != id
    ensures LeaseOk(TakeStep(s, id, step), s.jobs[i])
    ensures s.jobs[i].record.lease.Some? ==> s.jobs[i].record.lease != LeaseAfter(s.jobs[id], step)
  {
    hide JobOk, JobsOk, BoundOk, PermitsOk, After;
    assert LeaseOk(s, s.jobs[i]) && LeaseOk(s, s.jobs[id]);
    StepNeedsLease(s, id, step);
  }

  /** A lease is there to be released, and was not released before. */
  lemma StepNeedsLease(s: System, id: RequestId, step: Step)
    requires Inv(s) && Enabled(s, Take(id, step))
    ensures var job := s.jobs[id];
            && LeaseOk(s, job)
            && (step.Release? || step.CrashReleasing? ==>
                job.record.lease.Some? && job.record.lease.value !in s.released)
            && (step.Accept? ==> job.record.lease.None? && step.lease !in s.released)
  {
    hide JobOk, JobsOk, BoundOk, PermitsOk;
  }

  lemma OwnLease(s: System, id: RequestId, step: Step)
    requires Inv(s) && Enabled(s, Take(id, step))
    ensures var s' := TakeStep(s, id, step); LeaseOk(s', s'.jobs[id])
  {
    hide JobOk, BoundOk, PermitsOk, After;
    StepFrames(s.limits, s.now, s.jobs[id], step);
    StepNeedsLease(s, id, step);
  }

  lemma GrantedKept(s: System, id: RequestId, step: Step, t: Lease)
    requires Inv(s) && Enabled(s, Take(id, step)) && t in TakeStep(s, id, step).granted
    ensures var s' := TakeStep(s, id, step); t in s'.released || exists i :: 0 <= i < |s'.jobs| && Holds(s'.jobs[i], t)
  {
    hide JobOk, BoundOk, PermitsOk, After;
    var s' := TakeStep(s, id, step);
    StepFrames(s.limits, s.now, s.jobs[id], step);
    StepNeedsLease(s, id, step);
    if t !in s.granted {
      assert Holds(s'.jobs[id], t);
    } else if t !in s.released {
      var i :| 0 <= i < |s.jobs| && Holds(s.jobs[i], t);
      if i != id {
        assert Holds(s'.jobs[i], t);
      } else if !step.Release? && !step.CrashReleasing? {
        assert Holds(s'.jobs[id], t);
      }
    }
  }

  lemma LeasesKept(s: System, id: RequestId, step: Step)
    requires Inv(s) && Enabled(s, Take(id, step))
    ensures LeasesOk(TakeStep(s, id, step))
  {
    hide JobOk, BoundOk, PermitsOk, After;
    var s' := TakeStep(s, id, step);
    OwnLease(s, id, step);
    StepFrames(s.limits, s.now, s.jobs[id], step);
    StepNeedsLease(s, id, step);
    forall i | 0 <= i < |s'.jobs| ensures LeaseOk(s', s'.jobs[i]) {
      if i != id {
        OtherLeases(s, id, step, i);
      }
    }
    forall i, j | 0 <= i < j < |s'.jobs| && s'.jobs[i].record.lease.Some?
      ensures s'.jobs[i].record.lease != s'.jobs[j].record.lease
    {
      if i == id {
        OtherLeases(s, id, step, j);
      } else if j == id {
        OtherLeases(s, id, step, i);
      }
    }
    forall t <- s'.granted ensures t in s'.released || exists i :: 0 <= i < |s'.jobs| && Holds(s'.jobs[i], t) {
      GrantedKept(s, id, step, t);
    }
  }

  lemma TakeKeeps(s: System, id: RequestId, step: Step)
    requires Inv(s) && Enabled(s, Take(id, step))
    ensures Inv(TakeStep(s, id, step))
  {
    hide WellFormed, JobsOk, PermitsOk, BoundOk, LeasesOk, Enabled, After;
    JobsKept(s, id, step);
    PermitsKept(s, id, step);
    StoreKept(s, id, step);
    LeasesKept(s, id, step);
  }

  // ------------------------------------------------------- the store's own steps

  lemma EntriesDistinct(s: System)
    requires WellFormed(s)
    ensures DistinctIds(Entries(s.jobs, s.registered)) && |s.jobs| !in Ids(Entries(s.jobs, s.registered))
  {
  }

  /** Registering and sweeping keep a part of the store, as it is. */
  lemma KeptEntries(jobs: seq<Job>, es: seq<Entry>)
    requires DistinctIds(es) && forall e <- es :: e.id < |jobs| && e == EntryOf(e.id, jobs[e.id].record)
    ensures var ids := IdsInOrder(es);
            && (forall k | 0 <= k < |ids| :: ids[k] < |jobs|)
            && (forall i, j | 0 <= i < j < |ids| :: ids[i] != ids[j])
            && Entries(jobs, ids) == es
  {
    forall k | 0 <= k < |es| ensures es[k].id < |jobs| && es[k] == EntryOf(es[k].id, jobs[es[k].id].record) {
      assert es[k] in es;
    }
  }

  lemma RegisterKeeps(s: System, query: Query, deadline: int, expiresAt: int)
    requires Inv(s)
    ensures Inv(Register(s, query, NewRecord(s.now, deadline, expiresAt)))
  {
    hide TryRegister, InFlightCount, Tallied;
    var r := NewRecord(s.now, deadline, expiresAt);
    var s' := Register(s, query, r);
    var es, e, bound := Entries(s.jobs, s.registered), EntryOf(|s.jobs|, r),
      s.limits.maxConcurrent + s.limits.maxQueued;
    EntriesDistinct(s);
    TryRegisterBounded(es, e, bound);
    var admitted := TryRegister(es, e, bound);
    if admitted.Some? {
      var job := Job(r, query, Admitting, NOTHING, []);
      assert s'.jobs[..|s.jobs|] == s.jobs;
      KeptEntries(s'.jobs, admitted.value);
      NewJobOk(s.limits, r, query);
      NewJobLeases(s, s', job);
    }
  }

  lemma NewJobOk(limits: Limits, r: Record, query: Query)
    requires r == NewRecord(r.createdAt, r.deadline, r.expiresAt) && limits.maxResponseBytes >= 0
    ensures JobOk(limits, Job(r, query, Admitting, NOTHING, []))
  {
  }

  lemma NewJobLeases(s: System, s': System, job: Job)
    requires LeasesOk(s) && s'.jobs == s.jobs + [job] && s'.granted == s.granted && s'.released == s.released
    requires job.record.lease.None? && !job.phase.Leased()
    ensures LeasesOk(s')
  {
    forall t <- s'.granted ensures t in s'.released || exists i :: 0 <= i < |s'.jobs| && Holds(s'.jobs[i], t) {
      if t !in s.released {
        var i :| 0 <= i < |s.jobs| && Holds(s.jobs[i], t);
        assert Holds(s'.jobs[i], t);
      }
    }
  }

  lemma SweepKeeps(s: System, ttl: Option<int>)
    requires Inv(s)
    ensures Inv(s.(registered := IdsInOrder(Sweep(Entries(s.jobs, s.registered), ttl, s.now))))
  {
    hide Sweep, InFlightCount, JobOk;
    var es := Entries(s.jobs, s.registered);
    EntriesDistinct(s);
    SweepDropsExpired(es, ttl, s.now);
    KeptEntries(s.jobs, Sweep(es, ttl, s.now));
  }

  lemma NextKeeps(s: System, a: Action)
    requires Inv(s)
    ensures Inv(Next(s, a)) && Next(s, a).limits == s.limits
  {
    hide JobOk, JobsOk, PermitsOk, BoundOk, LeasesOk;
    if Enabled(s, a) {
      match a
      case Advance(_) => ClockKeeps(s, a.now);
      case Submit(query, deadline, expiresAt) => RegisterKeeps(s, query, deadline, expiresAt);
      case Take(id, step) => TakeKeeps(s, id, step);
      case SweepRecords(ttl) => SweepKeeps(s, ttl);
    }
  }

  lemma ClockKeeps(s: System, now: int)
    requires Inv(s)
    ensures Inv(s.(now := now))
  {
    hide JobOk;
  }

  lemma {:induction false} RunKeeps(s: System, run: seq<Action>)
    requires Inv(s)
    ensures Inv(Run(s, run)) && Run(s, run).limits == s.limits
  {
    hide Inv, Next;
    if run != [] {
      var before, a := run[..|run| - 1], run[|run| - 1];
      RunKeeps(s, before);
      NextKeeps(Run(s, before), a);
    }
  }

  lemma InitialOk(limits: Limits, now: int)
    requires limits.maxResponseBytes >= 0
    ensures Inv(Initial(limits, now))
  {
  }
}
