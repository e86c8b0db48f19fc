/**
 Requests as values (registry/requests.py): the record of one request, and one function for each stretch of
 code between two awaits. RequestExecutor.dfy proves that the executor's methods compute these functions;
 RequestSystem.dfy proves what every interleaving of them keeps.
 */
module RequestModel {
  import opened Wrappers

  type Lease = nat

  datatype Status =
    | Received | Queued | Sent | Partial | Completed | Failed | TimedOut | Cancelling | Cancelled | Expired
  {
    predicate Complete() {
      Completed? || Failed? || TimedOut? || Cancelled? || Expired?
    }

    predicate InFlight() {
      Received? || Queued? || Sent? || Partial? || Cancelling?
    }
  }

  datatype EventKind = PartialResponse | Response | Other

  datatype RawMessage = RawMessage(kind: EventKind, size: nat, body: string)

  /** A payload is a JSON object, so that it encodes to at least two bytes. */
  type Message = m: RawMessage | m.size >= 2 witness RawMessage(Other, 2, "")

  datatype Mode = Canonical | Typed | Normalized

  datatype Warning = NormalizerFallback | LargeResult

  /** Normalized output: its rows, when it has a list of them, and everything else. */
  datatype Table = Table(rows: Option<seq<string>>, rest: string)

  datatype Data = MessageList(messages: seq<Message>) | TableData(table: Table)

  datatype Content = MessageLines(messages: seq<Message>) | RowLines(rows: seq<string>) | WholeTable(table: Table)

  datatype Artifact = Artifact(resultId: string, mode: Mode, content: Content, messageCount: nat)

  datatype Preview = MessagePreview(messages: seq<Message>) | TablePreview(table: Table)

  datatype FinalResult = FinalResult(
    status: Status,
    mode: Mode,
    data: Option<Data>,
    preview: Option<Preview>,
    artifact: Option<Artifact>,
    warnings: seq<Warning>,
    itemErrors: seq<string>,
    error: Option<ErrorCode>)

  datatype Record = Record(
    status: Status,
    createdAt: int,
    deadline: int,
    expiresAt: int,
    lease: Option<Lease>,
    eventCount: nat,
    partialCount: nat,
    byteCount: nat,
    resultId: Option<string>,
    messages: seq<Message>,
    itemErrors: seq<string>,
    warnings: seq<Warning>,
    error: Option<ErrorCode>,
    completed: bool,
    final: Option<FinalResult>)

  /** The registered normalizer returns a table, or None when it raises. */
  datatype Query = Query(
    mode: Mode,
    versioned: bool,
    allowFallback: bool,
    jsonl: bool,
    previewItems: int,
    normalizer: Option<seq<Message> -> Option<Table>>)

  /** `size` is the encoded length of inline data; `itemErrors` walks the payloads for per-item failures. */
  datatype Limits = Limits(
    maxConcurrent: nat,
    maxQueued: nat,
    maxResponseBytes: int,
    inlineBytes: int,
    size: Data -> nat,
    itemErrors: seq<Message> -> seq<string>)

  /** What the runner hands to the waiting caller beside the record. */
  datatype Outcome = Outcome(data: Option<Data>, artifact: Option<Artifact>, preview: Option<Preview>)

  const NOTHING: Outcome := Outcome(None, None, None)

  function NewRecord(createdAt: int, deadline: int, expiresAt: int): Record {
    Record(Received, createdAt, deadline, expiresAt, None, 0, 0, 0, None, [], [], [], None, false, None)
  }

  // -------------------------------------------------------------- execution

  function Enqueue(r: Record): Record {
    r.(status := Queued)
  }

  function CancelBeforeStart(r: Record): Record {
    r.(status := Cancelled, completed := true)
  }

  function SubmitFailed(r: Record, code: ErrorCode): Record {
    r.(status := Failed, error := Some(code), completed := true)
  }

  function MarkSent(r: Record, lease: Lease): Record {
    r.(status := Sent, lease := Some(lease))
  }

  function Append(r: Record, m: Message): Record {
    r.(messages := r.messages + [m],
       eventCount := r.eventCount + 1,
       partialCount := if m.kind.PartialResponse? then r.partialCount + 1 else r.partialCount,
       status := if m.kind.PartialResponse? then Partial else r.status,
       byteCount := r.byteCount + m.size)
  }

  /** An error from the queue is reported as a cancellation when one was asked for. */
  function Interrupt(r: Record, code: ErrorCode): Record {
    var error := if r.status.Cancelling? then CANCELLED else code;
    r.(status := if error.TIMEOUT? then TimedOut else if error.CANCELLED? then Cancelled else Failed,
       error := Some(error),
       completed := true)
  }

  function PassDeadline(r: Record): Record {
    r.(status := TimedOut, error := Some(TIMEOUT), completed := true)
  }

  function RefuseSize(r: Record): Record {
    r.(status := Failed, error := Some(RESPONSE_TOO_LARGE), completed := true)
  }

  function Complete(r: Record): Record {
    r.(status := Completed, completed := true)
  }

  function ReleaseLease(r: Record): Record {
    r.(lease := None)
  }

  function Crash(r: Record): Record {
    r.(status := Failed, error := Some(INTERNAL_ERROR))
  }

  function Cancel(r: Record): Record {
    if r.status.Complete() then r else r.(status := Cancelling)
  }

  // ------------------------------------------------------------- finalizing

  /** The messages of a result, in order. */
  function Results(messages: seq<Message>): seq<Message> {
    if messages == [] then []
    else
      var last := messages[|messages| - 1];
      Results(messages[..|messages| - 1]) + if last.kind.Other? then [] else [last]
  }

  function Clamp(n: int): nat {
    if n < 0 then 0 else if n > 100 then 100 else n
  }

  function Take<T>(s: seq<T>, n: nat): seq<T> {
    if n < |s| then s[..n] else s
  }

  function Inline(limits: Limits, q: Query, data: Data): bool {
    !q.jsonl && limits.size(data) <= limits.inlineBytes
  }

  datatype Finish = Finished(record: Record, outcome: Outcome) | Raised(record: Record)

  function Close(r: Record, final: FinalResult): Record {
    r.(warnings := final.warnings, final := Some(final), messages := [])
  }

  function Draft(r: Record, mode: Mode, warnings: seq<Warning>): FinalResult {
    FinalResult(r.status, mode, None, None, None, warnings, r.itemErrors, None)
  }

  function FinishInline(r: Record, mode: Mode, warnings: seq<Warning>, data: Data): Finish {
    Finished(Close(r, Draft(r, mode, warnings).(data := Some(data))), Outcome(Some(data), None, None))
  }

  /** `stored` is the id the result store gave, or None when storing raised. */
  function FinishStored(r: Record, mode: Mode, warnings: seq<Warning>, content: Content, count: nat, preview: Preview,
                        stored: Option<string>): Finish
  {
    if stored.None? then Raised(r)
    else
      var artifact := Artifact(stored.value, mode, content, count);
      var final := Draft(r, mode, warnings + [LargeResult]).(artifact := Some(artifact), preview := Some(preview));
      Finished(Close(r.(resultId := stored), final), Outcome(None, Some(artifact), Some(preview)))
  }

  function FinishUnavailable(r: Record): Finish {
    var r' := r.(status := Failed, error := Some(NORMALIZER_NOT_AVAILABLE));
    Finished(Close(r', Draft(r', Normalized, r.warnings).(error := r'.error)), NOTHING)
  }

  function TablePreviewOf(table: Table, n: nat): Preview {
    TablePreview(table.(rows := Some(if table.rows.Some? then Take(table.rows.value, n) else [])))
  }

  function TableContent(q: Query, table: Table): Content {
    if q.jsonl && table.rows.Some? then RowLines(table.rows.value) else WholeTable(table)
  }

  function FinishTable(limits: Limits, q: Query, r: Record, table: Table, stored: Option<string>): Finish {
    if Inline(limits, q, TableData(table)) then FinishInline(r, Normalized, r.warnings, TableData(table))
    else
      FinishStored(r, Normalized, r.warnings, TableContent(q, table), |r.messages|,
                   TablePreviewOf(table, Clamp(q.previewItems)), stored)
  }

  function FinishMessages(limits: Limits, q: Query, r: Record, mode: Mode, warnings: seq<Warning>,
                          stored: Option<string>): Finish {
    var results := Results(r.messages);
    if Inline(limits, q, MessageList(results)) then FinishInline(r, mode, warnings, MessageList(results))
    else
      FinishStored(r, mode, warnings, MessageLines(results), |results|,
                   MessagePreview(Take(results, Clamp(q.previewItems))), stored)
  }

  /** The one-shot finalization of a completed record. */
  function Finalize(limits: Limits, q: Query, r: Record, stored: Option<string>): Finish {
    var r' := r.(itemErrors := limits.itemErrors(r.messages));
    if !q.mode.Normalized? then FinishMessages(limits, q, r', q.mode, r'.warnings, stored)
    else if q.normalizer.Some? then
      var table := q.normalizer.value(r'.messages);
      if table.None? then Raised(r') else FinishTable(limits, q, r', table.value, stored)
    else if !q.versioned && !q.allowFallback then FinishUnavailable(r')
    else FinishMessages(limits, q, r', Canonical, r'.warnings + [NormalizerFallback], stored)
  }

  // ---------------------------------------------------------------- replies

  /** What a reply tells about a finished request. */
  datatype Reply = Reply(
    status: Status,
    error: Option<ErrorCode>,
    data: Option<Data>,
    artifact: Option<Artifact>,
    preview: Option<Preview>,
    itemErrors: seq<string>,
    warnings: seq<Warning>)

  function PreviewOr(preview: Option<Preview>): Option<Preview> {
    if preview.None? then Some(MessagePreview([])) else preview
  }

  /** The reply to the caller that waited for the runner. */
  function CompletedResult(r: Record, o: Outcome): Reply {
    Reply(r.status,
          if r.status.Complete() then r.error else None,
          o.data, o.artifact,
          if o.artifact.Some? then PreviewOr(o.preview) else None,
          r.itemErrors, r.warnings)
  }

  /** The reply to a poll or to a replay. */
  function HandleSnapshot(r: Record): Reply {
    if r.final.Some? then
      var f := r.final.value;
      Reply(r.status, f.error, f.data, f.artifact,
            if f.artifact.Some? then PreviewOr(f.preview) else None,
            if f.itemErrors != [] then f.itemErrors else r.itemErrors,
            if f.warnings != [] then f.warnings else r.warnings)
    else Reply(r.status, r.error, None, None, None, r.itemErrors, r.warnings)
  }
}
