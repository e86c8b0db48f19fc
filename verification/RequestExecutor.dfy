/**
 The request executor as it is written (registry/requests.py): one record per request, updated in place. Every
 path of the runner, whatever the backend sends and whenever it is cancelled, is a path of the request system.
 */
module RequestExecutor {
  import opened Wrappers
  import opened RequestModel
  import opened RequestSystem
  import opened RequestSafety
  import opened RequestTheorems

  const SECOND: int := 1_000_000

  class RequestRecord {
    var status: Status
    const createdAt: int
    const deadline: int
    const expiresAt: int
    var lease: Option<Lease>
    var eventCount: nat
    var partialCount: nat
    var byteCount: nat
    var resultId: Option<string>
    var messages: seq<Message>
    var itemErrors: seq<string>
    var warnings: seq<Warning>
    var error: Option<ErrorCode>
    var completed: bool
    var final: Option<FinalResult>

    function View(): Record
      reads this
    {
      Record(status, createdAt, deadline, expiresAt, lease, eventCount, partialCount, byteCount, resultId, messages,
             itemErrors, warnings, error, completed, final)
    }

    constructor (createdAt: int, deadline: int, expiresAt: int)
      ensures View() == NewRecord(createdAt, deadline, expiresAt)
    {
      this.createdAt, this.deadline, this.expiresAt := createdAt, deadline, expiresAt;
      status, lease, resultId, error, completed, final := Received, None, None, None, false, None;
      eventCount, partialCount, byteCount := 0, 0, 0;
      messages, itemErrors, warnings := [], [], [];
    }
  }

  /** What waiting on the queue can bring. */
  datatype Arrival = Silence | Error(code: ErrorCode) | Item(message: Message)

  datatype Submission = Granted(lease: Lease) | Refused(code: ErrorCode) | Raises

  /** Everything outside the executor: the clock in microseconds, the backend, the store, and other callers. */
  class World {
    var now: int

    /** While the runner is suspended, time passes and the request may be cancelled. */
    method Suspend(record: RequestRecord, atLeast: int) returns (asked: bool)
      requires atLeast >= 0
      modifies this, record`status
      ensures now >= old(now) + atLeast
      ensures record.View() == if asked then Cancel(old(record.View())) else old(record.View())
    {
      asked := *;
      if asked && !record.status.Complete() {
        record.status := Cancelling;
      }
      var later: int := *;
      now := if later >= now + atLeast then later else now + atLeast;
    }

    /** queue.get() under a timeout. */
    method Get(record: RequestRecord, timeout: int) returns (arrival: Arrival, asked: bool)
      requires timeout > 0
      modifies this, record`status
      ensures now >= old(now) && (arrival.Silence? ==> now >= old(now) + timeout)
      ensures record.View() == if asked then Cancel(old(record.View())) else old(record.View())
    {
      arrival := *;
      asked := Suspend(record, if arrival.Silence? then timeout else 0);
    }

    /** A backend call that may raise. */
    method Call(record: RequestRecord) returns (raised: bool, asked: bool)
      modifies this, record`status
      ensures now >= old(now)
      ensures record.View() == if asked then Cancel(old(record.View())) else old(record.View())
    {
      raised := *;
      asked := Suspend(record, 0);
    }

    /** The native submission: a lease, a refusal, or any other exception. */
    method SubmitNative(record: RequestRecord) returns (answer: Submission, asked: bool)
      modifies this, record`status
      ensures now >= old(now)
      ensures record.View() == if asked then Cancel(old(record.View())) else old(record.View())
    {
      answer := *;
      asked := Suspend(record, 0);
    }

    /** The id of a stored artifact, or None when storing raises. */
    method Put(content: Content, count: nat) returns (resultId: Option<string>) {
      resultId := *;
    }
  }

  class Executor {
    const limits: Limits
    const world: World

    constructor (limits: Limits, world: World)
      ensures this.limits == limits && this.world == world
    {
      this.limits, this.world := limits, world;
    }

    method Finalize(record: RequestRecord, q: Query)
      returns (outcome: Outcome, raised: bool, ghost stored: Option<string>)
      modifies record
      ensures var f := RequestModel.Finalize(limits, q, old(record.View()), stored);
              && record.View() == f.record && raised == f.Raised?
              && outcome == if f.Finished? then f.outcome else NOTHING
    {
      hide FinishMessages, FinishTable, FinishUnavailable;
      outcome, raised, stored := NOTHING, false, None;
      record.itemErrors := limits.itemErrors(record.messages);
      var warnings, mode := record.warnings, q.mode;
      var final := FinalResult(record.status, mode, None, None, None, [], record.itemErrors, None);
      if mode.Normalized? {
        if q.normalizer.None? {
          if !q.versioned && !q.allowFallback {
            RefuseMode(record, warnings, final);
            return;
          }
          warnings, mode := warnings + [NormalizerFallback], Canonical;
          final := final.(mode := mode);
        } else {
          var normalized := q.normalizer.value(record.messages);
          if normalized.None? {
            raised := true;
            return;
          }
          outcome, raised, stored := FinalizeTable(record, q, normalized.value, warnings, final);
          return;
        }
      }
      outcome, raised, stored := FinalizeMessages(record, q, mode, warnings, final);
    }

    method RefuseMode(record: RequestRecord, warnings: seq<Warning>, draft: FinalResult)
      requires warnings == record.warnings && draft == Draft(record.View(), Normalized, [])
      modifies record
      ensures FinishUnavailable(old(record.View())) == Finished(record.View(), NOTHING)
    {
      record.status, record.error, record.warnings := Failed, Some(NORMALIZER_NOT_AVAILABLE), warnings;
      var final := draft.(status := record.status, error := record.error, warnings := warnings);
      record.final, record.messages := Some(final), [];
    }

    method FinalizeTable(record: RequestRecord, q: Query, table: Table, warnings: seq<Warning>, draft: FinalResult)
      returns (outcome: Outcome, raised: bool, ghost stored: Option<string>)
      requires warnings == record.warnings && draft == Draft(record.View(), Normalized, [])
      modifies record
      ensures var f := FinishTable(limits, q, old(record.View()), table, stored);
              && record.View() == f.record && raised == f.Raised?
              && outcome == if f.Finished? then f.outcome else NOTHING
    {
      outcome, raised, stored := NOTHING, false, None;
      var final := draft;
      if !q.jsonl && limits.size(TableData(table)) <= limits.inlineBytes {
        final := final.(warnings := warnings, data := Some(TableData(table)));
        record.warnings, record.final, record.messages := warnings, Some(final), [];
        outcome := outcome.(data := final.data);
        return;
      }
      var content := if q.jsonl && table.rows.Some? then RowLines(table.rows.value) else WholeTable(table);
      var resultId := world.Put(content, |record.messages|);
      stored := resultId;
      if resultId.None? {
        raised := true;
        return;
      }
      record.resultId := resultId;
      final := final.(artifact := Some(Artifact(resultId.value, Normalized, content, |record.messages|)));
      var rows := if table.rows.Some? then table.rows.value else [];
      final := final.(preview := Some(TablePreview(table.(rows := Some(RequestModel.Take(rows,
          Clamp(q.previewItems)))))));
      final := final.(warnings := warnings + [LargeResult]);
      record.warnings, record.final, record.messages := final.warnings, Some(final), [];
      outcome := outcome.(artifact := final.artifact, preview := final.preview);
    }

    method FinalizeMessages(record: RequestRecord, q: Query, mode: Mode, warnings: seq<Warning>, draft: FinalResult)
      returns (outcome: Outcome, raised: bool, ghost stored: Option<string>)
      requires draft == Draft(record.View(), mode, [])
      modifies record
      ensures var f := FinishMessages(limits, q, old(record.View()), mode, warnings, stored);
              && record.View() == f.record && raised == f.Raised?
              && outcome == if f.Finished? then f.outcome else NOTHING
    {
      outcome, raised, stored := NOTHING, false, None;
      var final := draft;
      var results := Collect(record.messages);
      if !q.jsonl && limits.size(MessageList(results)) <= limits.inlineBytes {
        final := final.(data := Some(MessageList(results)), warnings := warnings);
        record.warnings, record.final, record.messages := warnings, Some(final), [];
        outcome := outcome.(data := final.data);
        return;
      }
      var resultId := world.Put(MessageLines(results), |results|);
      stored := resultId;
      if resultId.None? {
        raised := true;
        return;
      }
      record.resultId := resultId;
      final := final.(artifact := Some(Artifact(resultId.value, mode, MessageLines(results), |results|)));
      final := final.(preview := Some(MessagePreview(RequestModel.Take(results, Clamp(q.previewItems)))));
      final := final.(warnings := warnings + [LargeResult]);
      record.warnings, record.final, record.messages := final.warnings, Some(final), [];
      outcome := outcome.(artifact := final.artifact, preview := final.preview);
    }

    method Collect(messages: seq<Message>) returns (results: seq<Message>)
      ensures results == Results(messages)
    {
      results := [];
      assert messages[..0] == [];
      for i := 0 to |messages|
        invariant results == Results(messages[..i])
      {
        assert messages[..i + 1][..i] == messages[..i];
        if !messages[i].kind.Other? {
          results := results + [messages[i]];
        }
      }
      assert messages[..|messages|] == messages;
    }

    // ------------------------------------------------------------ suspensions

    /** The path of the job so far, and the record is where the path says. */
    ghost predicate On(record: RequestRecord, job: Job, path: seq<Moment>, at: Job)
      reads record
    {
      CanFollow(limits, job, path) && at == Follow(limits, job, path) && at.record == record.View()
    }

    lemma CancelledPath(job: Job, path: seq<Moment>, at: Job, asked: bool, now: int)
      requires CanFollow(limits, job, path) && at == Follow(limits, job, path)
      ensures var path' := if asked then path + [Moment(now, AskCancel)] else path;
              && CanFollow(limits, job, path')
              && Follow(limits, job, path') == at.(record := if asked then Cancel(at.record) else at.record)
    {
      hide ReceiveMessage, CanFollow, Follow;
      if asked {
        assert CanStep(now, at, AskCancel);
        FollowSnoc(limits, job, path, Moment(now, AskCancel));
        assert After(limits, at, AskCancel) == at.(record := Cancel(at.record));
      }
    }

    method Await(record: RequestRecord, ghost job: Job, ghost path: seq<Moment>, ghost at: Job)
      returns (ghost path': seq<Moment>)
      requires On(record, job, path, at)
      modifies world, record`status
      ensures world.now >= old(world.now)
      ensures On(record, job, path', at.(record := record.View()))
    {
      var asked := world.Suspend(record, 0);
      CancelledPath(job, path, at, asked, world.now);
      path' := if asked then path + [Moment(world.now, AskCancel)] else path;
    }

    method CallBackend(record: RequestRecord, ghost job: Job, ghost path: seq<Moment>, ghost at: Job)
      returns (failed: bool, ghost path': seq<Moment>)
      requires On(record, job, path, at)
      modifies world, record`status
      ensures world.now >= old(world.now)
      ensures On(record, job, path', at.(record := record.View()))
    {
      var asked;
      failed, asked := world.Call(record);
      CancelledPath(job, path, at, asked, world.now);
      path' := if asked then path + [Moment(world.now, AskCancel)] else path;
    }

    method NextItem(record: RequestRecord, timeout: int, ghost job: Job, ghost path: seq<Moment>, ghost at: Job)
      returns (arrival: Arrival, ghost path': seq<Moment>)
      requires On(record, job, path, at) && timeout > 0
      modifies world, record`status
      ensures world.now >= old(world.now) && (arrival.Silence? ==> world.now >= old(world.now) + timeout)
      ensures On(record, job, path', at.(record := record.View()))
    {
      var asked;
      arrival, asked := world.Get(record, timeout);
      CancelledPath(job, path, at, asked, world.now);
      path' := if asked then path + [Moment(world.now, AskCancel)] else path;
    }

    // --------------------------------------------------------- the consume loop

    method AppendMessage(record: RequestRecord, message: Message)
      modifies record
      ensures record.View() == Append(old(record.View()), message)
      ensures record.byteCount == old(record.byteCount) + message.size
    {
      record.messages := record.messages + [message];
      record.eventCount := record.eventCount + 1;
      if message.kind.PartialResponse? {
        record.partialCount := record.partialCount + 1;
        record.status := Partial;
      }
      record.byteCount := record.byteCount + message.size;
    }

    method Interrupted(record: RequestRecord, code: ErrorCode)
      modifies record
      ensures record.View().(completed := true) == Interrupt(old(record.View()), code)
    {
      var error := code;
      if record.status.Cancelling? {
        error := CANCELLED;
      }
      record.status := if error.TIMEOUT? then TimedOut else if error.CANCELLED? then Status.Cancelled else Failed;
      record.error := Some(error);
    }

    /** The backend is told to stop; then the request is given up with this error, unless telling it raises. */
    method GiveUp(record: RequestRecord, status: Status, code: ErrorCode,
                  ghost job: Job, ghost path: seq<Moment>, ghost at: Job, ghost step: Step)
      returns (failed: bool, ghost path': seq<Moment>, ghost at': Job)
      requires CanFollow(limits, job, path) && at == Follow(limits, job, path) && CanStep(world.now, at, step)
      requires var stopping := After(limits, at, step); stopping.phase.Stopping? && stopping.record == record.View()
      requires if After(limits, at, step).phase.tooLarge then status.Failed? && code.RESPONSE_TOO_LARGE?
               else status.TimedOut? && code.TIMEOUT?
      modifies world, record
      ensures world.now >= old(world.now)
      ensures CanFollow(limits, job, path') && at' == Follow(limits, job, path')
      ensures at'.query == After(limits, at, step).query && at'.outcome == After(limits, at, step).outcome
      ensures if failed then at'.phase == Releasing(true) && at'.record == record.View()
              else Pending(at', Stop, record.View(), world.now)
    {
      hide CanFollow, Follow, ReceiveMessage;
      ghost var stopping := After(limits, at, step);
      FollowSnoc(limits, job, path, Moment(world.now, step));
      failed, path' := CallBackend(record, job, path + [Moment(world.now, step)], stopping);
      at' := stopping.(record := record.View());
      if failed {
        FollowSnoc(limits, job, path', Moment(world.now, CrashStopping));
        path', at' := path' + [Moment(world.now, CrashStopping)], at'.(phase := Releasing(true));
      } else {
        record.status, record.error := status, Some(code);
      }
    }

    /** What is left to do when the loop has ended without a response. */
    ghost predicate Pending(at: Job, last: Step, r: Record, now: int) {
      && !last.Receive? && !r.status.Completed? && CanStep(now, at, last)
      && After(limits, at, last) == at.(phase := Releasing(false), record := r.(completed := true))
    }

    /** The response has been appended. */
    ghost predicate Answers(at: Job, last: Step, r: Record) {
      && last.Receive? && last.message.kind.Response? && at.phase.Consuming?
      && r == Append(at.record, last.message).(status := Completed) && r.byteCount <= limits.maxResponseBytes
    }

    /** The end of the loop: the record is complete, and finalized when the response has come. */
    method Close(record: RequestRecord, q: Query, ghost job: Job, ghost path: seq<Moment>, ghost at: Job,
                 ghost last: Step)
      returns (outcome: Outcome, raised: bool, ghost path': seq<Moment>)
      requires CanFollow(limits, job, path) && at == Follow(limits, job, path) && at.query == q && at.outcome == NOTHING
      requires Answers(at, last, record.View()) || Pending(at, last, record.View(), world.now)
      modifies record
      ensures On(record, job, path', Follow(limits, job, path'))
      ensures var end := Follow(limits, job, path');
              end.phase == Releasing(raised) && end.outcome == outcome && end.query == q
    {
      hide CanFollow, Follow, ReceiveMessage, Append;
      outcome, raised := NOTHING, false;
      ghost var step := last;
      record.completed := true;
      if record.status.Completed? {
        ghost var stored;
        outcome, raised, stored := Finalize(record, q);
        ReceiveAnswer(limits, at, last.message, stored);
        step := Receive(last.message, stored);
      }
      FollowSnoc(limits, job, path, Moment(world.now, step));
      path' := path + [Moment(world.now, step)];
    }

    /**
     Messages are taken until the response, an error, the deadline or the size limit. This ends: every message
     uses up some of the size limit, and every silence some of the time.
     */
    method Consume(record: RequestRecord, q: Query, ghost job: Job)
      returns (outcome: Outcome, raised: bool, ghost path: seq<Moment>)
      requires job.phase.Consuming? && job.query == q && job.outcome == NOTHING && job.record == record.View()
      requires record.byteCount <= limits.maxResponseBytes
      modifies record, world
      ensures world.now >= old(world.now)
      ensures On(record, job, path, Follow(limits, job, path))
      ensures var end := Follow(limits, job, path);
              end.phase == Releasing(raised) && end.outcome == outcome && end.query == q
    {
      hide CanFollow, Follow, ReceiveMessage, Append, Interrupt, Pending;
      outcome, raised, path := NOTHING, false, [];
      NoPath(limits, job);
      ghost var at, last := job, Stop;
      var completed := false;
      while !completed
        invariant world.now >= old(world.now)
        invariant CanFollow(limits, job, path) && at == Follow(limits, job, path)
        invariant at.phase.Consuming? && at.query == q && at.outcome == NOTHING
        invariant record.byteCount <= limits.maxResponseBytes
        invariant if completed then Answers(at, last, record.View()) else at.record == record.View()
        decreases !completed, limits.maxResponseBytes - record.byteCount, record.deadline - world.now
      {
        var remaining := record.deadline - world.now;
        if remaining <= 0 {
          raised, path, at := GiveUp(record, TimedOut, TIMEOUT, job, path, at, ReachDeadline);
          if raised {
            return;
          }
          last := Stop;
          break;
        }
        var arrival;
        arrival, path := NextItem(record, if remaining < SECOND then remaining else SECOND, job, path, at);
        at := at.(record := record.View());
        if arrival.Silence? {
          continue;
        }
        if arrival.Error? {
          Interrupted(record, arrival.code);
          last := Fail(arrival.code);
          InterruptPending(limits, at, arrival.code, record.View(), world.now);
          break;
        }
        var message := arrival.message;
        AppendMessage(record, message);
        if record.byteCount > limits.maxResponseBytes {
          ReceiveTooMuch(limits, at, message);
          raised, path, at := GiveUp(record, Failed, RESPONSE_TOO_LARGE, job, path, at, Receive(message, None));
          if raised {
            return;
          }
          last := Stop;
          break;
        }
        if message.kind.Response? {
          record.status := Completed;
          last := Receive(message, None);
          completed := true;
        } else {
          ReceiveOneMore(limits, at, message);
          FollowSnoc(limits, job, path, Moment(world.now, Receive(message, None)));
          path := path + [Moment(world.now, Receive(message, None))];
          at := at.(record := record.View(), received := at.received + [message]);
        }
      }
      outcome, raised, path := Close(record, q, job, path, at, last);
    }

    /** Cancelling a finished request changes nothing. */
    method CancelRequest(record: RequestRecord) returns (cancelled: bool)
      modifies record`status
      ensures record.View() == Cancel(old(record.View()))
      ensures cancelled <==> !old(record.status).Complete()
    {
      if record.status.Complete() {
        return false;
      }
      if !record.status.Cancelling? {
        record.status := Cancelling;
      }
      return true;
    }

    // ------------------------------------------------------------- the runner

    method SubmitRequest(record: RequestRecord, ghost job: Job, ghost path: seq<Moment>, ghost at: Job)
      returns (answer: Submission, ghost path': seq<Moment>)
      requires On(record, job, path, at)
      modifies world, record`status
      ensures On(record, job, path', at.(record := record.View()))
    {
      var asked;
      answer, asked := world.SubmitNative(record);
      CancelledPath(job, path, at, asked, world.now);
      path' := if asked then path + [Moment(world.now, AskCancel)] else path;
    }

    /** From the queue to the grant of a lease; `started` tells whether there is anything to consume. */
    method Begin(record: RequestRecord, q: Query, ghost job: Job) returns (started: bool, ghost path: seq<Moment>)
      requires job == Job(record.View(), q, Launched, NOTHING, [])
      modifies record, world
      ensures On(record, job, path, Follow(limits, job, path))
      ensures var end := Follow(limits, job, path);
              && end.phase == (if started then Consuming else Done) && end.outcome == NOTHING && end.query == q
              && end.record.byteCount == job.record.byteCount
    {
      hide CanFollow, Follow, ReceiveMessage;
      NoPath(limits, job);
      ghost var at := job;
      record.status := Queued;
      path, at := Extend(job, [], at, Start);
      path := Await(record, job, path, at);
      path, at := Extend(job, path, at.(record := record.View()), Acquire);
      if record.status.Cancelling? {
        record.status, record.completed := Status.Cancelled, true;
        return false, path;
      }
      started, path := Submit(record, job, path, at);
    }

    method Submit(record: RequestRecord, ghost job: Job, ghost path: seq<Moment>, ghost at: Job)
      returns (started: bool, ghost path': seq<Moment>)
      requires On(record, job, path, at) && at.phase.Submitting?
      modifies record, world
      ensures On(record, job, path', Follow(limits, job, path'))
      ensures var end := Follow(limits, job, path');
              && end.phase == (if started then Consuming else Done) && end.outcome == at.outcome
                 && end.query == at.query
              && end.record.byteCount == at.record.byteCount
    {
      hide CanFollow, Follow, ReceiveMessage;
      var answer;
      answer, path' := SubmitRequest(record, job, path, at);
      ghost var at' := at.(record := record.View());
      match answer
      case Granted(lease) =>
        record.status, record.lease := Sent, Some(lease);
        path', at' := Extend(job, path', at', Accept(lease));
        return true, path';
      case Refused(code) =>
        record.status, record.error, record.completed := Failed, Some(code), true;
        path', at' := Extend(job, path', at', Refuse(code));
        return false, path';
      case Raises =>
        record.status, record.error := Failed, Some(INTERNAL_ERROR);
        path', at' := Extend(job, path', at', CrashSubmitting);
        return false, path';
    }

    ghost method Extend(job: Job, path: seq<Moment>, at: Job, step: Step) returns (path': seq<Moment>, at': Job)
      requires CanFollow(limits, job, path) && at == Follow(limits, job, path) && CanStep(world.now, at, step)
      ensures CanFollow(limits, job, path') && at' == Follow(limits, job, path') && at' == After(limits, at, step)
    {
      FollowSnoc(limits, job, path, Moment(world.now, step));
      path', at' := path + [Moment(world.now, step)], After(limits, at, step);
    }

    /** The lease is given back on every path; then the request is done, or has crashed. */
    method End(record: RequestRecord, crashed: bool, ghost job: Job, ghost path: seq<Moment>, ghost at: Job)
      returns (ghost path': seq<Moment>)
      requires On(record, job, path, at) && at.phase == Releasing(crashed)
      modifies record, world
      ensures On(record, job, path', Follow(limits, job, path'))
      ensures var end := Follow(limits, job, path');
              end.phase.Done? && end.outcome == at.outcome && end.query == at.query
    {
      hide CanFollow, Follow, ReceiveMessage;
      var failed;
      failed, path' := CallBackend(record, job, path, at);
      ghost var at', step := at.(record := record.View()), CrashReleasing;
      var audited: bool := *;
      if !failed {
        record.lease := None;
        step := Release(!audited);
      }
      if failed || crashed || !audited {
        record.status, record.error := Failed, Some(INTERNAL_ERROR);
      }
      path', at' := Extend(job, path', at', step);
    }

    /**
     The whole life of a runner. Whatever happens, the record ends complete, and the waiting caller is told what
     later polls are told, exactly unless its path has a raise after the result was stored.
     */
    method Run(record: RequestRecord, q: Query) returns (outcome: Outcome, ghost path: seq<Moment>)
      requires limits.maxResponseBytes >= 0 && JobOk(limits, Job(record.View(), q, Launched, NOTHING, []))
      modifies record, world
      ensures var job := Job(old(record.View()), q, Launched, NOTHING, []);
              && CanFollow(limits, job, path)
              && var end := Follow(limits, job, path);
                 && end.phase.Done? && end.record == record.View() && end.outcome == outcome && JobOk(limits, end)
      ensures record.status.Complete()
      ensures CompletedResult(record.View(), outcome) == HandleSnapshot(record.View()) <==>
                !RaisedOnPath(limits, Job(old(record.View()), q, Launched, NOTHING, []), path)
    {
      hide CanFollow, Follow, JobOk, CompletedResult, HandleSnapshot, CrashedLate, RaisedOnPath;
      ghost var job := Job(record.View(), q, Launched, NOTHING, []);
      var started;
      started, path := Begin(record, q, job);
      ghost var at := Follow(limits, job, path);
      outcome := NOTHING;
      FreshBytes(limits, job);
      if started {
        ghost var middle, last;
        var raised;
        outcome, raised, middle := Consume(record, q, at);
        last := End(record, raised, at, middle, Follow(limits, at, middle));
        FollowConcat(limits, job, path, last);
        path := path + last;
      }
      FollowKeeps(limits, job, path);
      DoneIsComplete(limits, Follow(limits, job, path));
      RepliesAgree(limits, Follow(limits, job, path));
      LateCrashPath(limits, job, path);
    }

    lemma InterruptPending(limits: Limits, at: Job, code: ErrorCode, r: Record, now: int)
      requires limits == this.limits && at.phase.Consuming? && r.(completed := true) == Interrupt(at.record, code)
      ensures Pending(at, Fail(code), r, now)
    {
    }
  }

  lemma NoPath(limits: Limits, job: Job)
    ensures CanFollow(limits, job, []) && Follow(limits, job, []) == job
  {
  }

  lemma FreshBytes(limits: Limits, job: Job)
    requires JobOk(limits, job) && job.received == []
    ensures job.record.byteCount == 0
    ensures job.phase.Launched? ==> !CrashedLate(job.record)
  {
  }

  lemma {:induction false} FollowConcat(limits: Limits, job: Job, path: seq<Moment>, more: seq<Moment>)
    requires CanFollow(limits, job, path) && CanFollow(limits, Follow(limits, job, path), more)
    ensures CanFollow(limits, job, path + more)
    ensures Follow(limits, job, path + more) == Follow(limits, Follow(limits, job, path), more)
    decreases |more|
  {
    hide After, CanStep;
    if more == [] {
      assert path + more == path;
    } else {
      var init, both := more[..|more| - 1], path + more;
      FollowConcat(limits, job, path, init);
      assert both[..|both| - 1] == path + init;
    }
  }

  lemma ReceiveTooMuch(limits: Limits, job: Job, m: Message)
    requires Append(job.record, m).byteCount > limits.maxResponseBytes
    ensures ReceiveMessage(limits, job, m, None) ==
              job.(record := Append(job.record, m), received := job.received + [m], phase := Stopping(true))
  {
  }

  lemma ReceiveOneMore(limits: Limits, job: Job, m: Message)
    requires Append(job.record, m).byteCount <= limits.maxResponseBytes && !m.kind.Response?
    ensures ReceiveMessage(limits, job, m, None) == job.(record := Append(job.record, m),
                                                         received := job.received + [m])
  {
  }

  lemma ReceiveAnswer(limits: Limits, job: Job, m: Message, stored: Option<string>)
    requires Append(job.record, m).byteCount <= limits.maxResponseBytes && m.kind.Response? && job.outcome == NOTHING
    ensures var f := RequestModel.Finalize(limits, job.query,
                                           Append(job.record, m).(status := Completed, completed := true), stored);
            ReceiveMessage(limits, job, m, stored) ==
              job.(record := f.record, received := job.received + [m], phase := Releasing(f.Raised?),
                   outcome := if f.Finished? then f.outcome else NOTHING)
  {
  }
}
