/**
 What a finished request is answered, said of the messages that were received and of what was asked: which messages a
 result holds, whether it is inline or an artifact, its preview and its warnings.
 */
module RequestAnswers {
  import opened Wrappers
  import opened RequestModel
  import opened RequestAdmission
  import opened RequestSystem
  import opened RequestSafety
  import opened RequestTheorems

  // ------------------------------------------------------ the messages of a result

  ghost predicate Increasing(positions: seq<nat>) {
    forall j, k | 0 <= j < k < |positions| :: positions[j] < positions[k]
  }

  /** These positions are exactly those of the partial and final responses. */
  ghost predicate Answering(received: seq<Message>, positions: seq<nat>) {
    forall i: nat :: i in positions <==> i < |received| && (received[i].kind.PartialResponse?
                                                            || received[i].kind.Response?)
  }

  /** Every partial and final response that was received, once each, in the order of arrival, and nothing else. */
  ghost predicate HoldsTheAnswer(received: seq<Message>, messages: seq<Message>) {
    exists positions: seq<nat> ::
      && Increasing(positions) && Answering(received, positions) && |positions| == |messages|
      && forall k | 0 <= k < |messages| :: positions[k] < |received| && messages[k] == received[positions[k]]
  }

  lemma {:induction false} ResultsHold(received: seq<Message>) returns (positions: seq<nat>)
    ensures Increasing(positions) && Answering(received, positions) && |positions| == |Results(received)|
    ensures forall k | 0 <= k < |positions| ::
              positions[k] < |received| && Results(received)[k] == received[positions[k]]
  {
    positions := [];
    if received != [] {
      var n := |received| - 1;
      positions := ResultsHold(received[..n]);
      forall k | 0 <= k < |positions| ensures positions[k] < n && Results(received)[k] == received[positions[k]] {
        assert Results(received[..n])[k] == received[..n][positions[k]];
      }
      if !received[n].kind.Other? {
        ghost var before := positions;
        positions := positions + [n];
        assert forall i: nat :: i in positions <==> i in before || i == n;
      }
      forall i: nat
        ensures i in positions <==>
                i < |received| && (received[i].kind.PartialResponse? || received[i].kind.Response?) {
        if i < n {
          assert received[..n][i] == received[i];
        }
      }
    }
  }

  lemma ResultsAnswer(received: seq<Message>)
    ensures HoldsTheAnswer(received, Results(received))
  {
    var positions := ResultsHold(received);
  }

  /** There is only one way to hold it. */
  lemma AnswerIsUnique(received: seq<Message>, messages: seq<Message>)
    requires HoldsTheAnswer(received, messages)
    ensures messages == Results(received)
  {
    var positions: seq<nat> :|
      && Increasing(positions) && Answering(received, positions) && |positions| == |messages|
      && forall k | 0 <= k < |messages| :: positions[k] < |received| && messages[k] == received[positions[k]];
    var others := ResultsHold(received);
    SameEnumeration(positions, others);
  }

  lemma SomeMember(s: seq<nat>)
    ensures s != [] ==> exists i: nat :: i in s
  {
    if s != [] {
      assert s[0] in s;
    }
  }

  ghost predicate SameMembers(one: seq<nat>, other: seq<nat>) {
    forall i: nat :: i in one <==> i in other
  }

  /** The last member is the greatest, and the others are what is left without it. */
  lemma LastMember(s: seq<nat>)
    requires Increasing(s) && s != []
    ensures s[|s| - 1] in s && forall i: nat | i in s :: i <= s[|s| - 1]
    ensures forall i: nat :: i in s[..|s| - 1] <==> i in s && i != s[|s| - 1]
    ensures Increasing(s[..|s| - 1])
  {
    assert s == s[..|s| - 1] + [s[|s| - 1]];
  }

  lemma {:induction false} SameEnumeration(one: seq<nat>, other: seq<nat>)
    requires Increasing(one) && Increasing(other) && SameMembers(one, other)
    ensures one == other
    decreases |one|
  {
    hide Increasing;
    if one == [] || other == [] {
      SomeMember(one);
      SomeMember(other);
    } else {
      var m, n := |one| - 1, |other| - 1;
      LastMember(one);
      LastMember(other);
      assert one[m] in other && other[n] in one;
      assert one[m] == other[n];
      forall i: nat ensures i in one[..m] <==> i in other[..n] {
        assert i in one[..m] <==> i in one && i != one[m];
        assert i in other[..n] <==> i in other && i != other[n];
        assert i in one <==> i in other;
      }
      SameEnumeration(one[..m], other[..n]);
      assert one == one[..m] + [one[m]] && other == other[..n] + [other[n]];
    }
  }

  /** At most a hundred, and none for a negative number. */
  ghost predicate PreviewLength(asked: int, available: nat, given: nat) {
    given == if asked <= 0 then 0 else if asked <= 100 && asked <= available then asked
             else if 100 <= available then 100 else available
  }

  // ---------------------------------------------------------------- final results

  /** Messages, because they were asked for or because no normalizer is there. */
  ghost predicate AnsweredByMessages(limits: Limits, q: Query, f: FinalResult, received: seq<Message>) {
    exists messages ::
      && HoldsTheAnswer(received, messages)
      && f.mode == (if q.mode.Normalized? then Canonical else q.mode)
      && (f.data == if !q.jsonl && limits.size(MessageList(messages)) <= limits.inlineBytes
                    then Some(MessageList(messages)) else None)
      && (f.artifact.Some? ==>
            && f.artifact.value.content == MessageLines(messages) && f.artifact.value.mode == f.mode
            && f.artifact.value.messageCount == |messages|
            && f.preview.Some? && f.preview.value.MessagePreview?
            && f.preview.value.messages <= messages
            && PreviewLength(q.previewItems, |messages|, |f.preview.value.messages|))
  }

  /** What the normalizer made of everything received. */
  ghost predicate AnsweredByTable(limits: Limits, q: Query, f: FinalResult, received: seq<Message>) {
    && q.normalizer.Some? && q.normalizer.value(received).Some? && f.mode.Normalized?
    && var table := q.normalizer.value(received).value;
    && (f.data == if !q.jsonl && limits.size(TableData(table)) <= limits.inlineBytes then Some(TableData(table))
        else None)
    && (f.artifact.Some? ==>
          && f.artifact.value.content == (if q.jsonl && table.rows.Some? then RowLines(table.rows.value)
                                          else WholeTable(table))
          && f.artifact.value.messageCount == |received| && f.artifact.value.mode == f.mode
          && f.preview.Some? && f.preview.value.TablePreview?
          && f.preview.value.table.rest == table.rest && f.preview.value.table.rows.Some?
          && var shown := f.preview.value.table.rows.value;
          && (table.rows.Some? ==> shown <= table.rows.value)
          && PreviewLength(q.previewItems, if table.rows.Some? then |table.rows.value| else 0, |shown|))
  }

  /**
   The result of a request, in every reachable state,
     and so what its caller and every poll are handed. A normalizer that
   is missing without leave to fall back is an error; otherwise there is data or an artifact, but not both.
   */
  lemma ResultIsAsAsked(limits: Limits, now: int, actions: seq<Action>, id: RequestId)
    requires limits.maxResponseBytes >= 0 && id < |Reached(limits, now, actions).jobs|
    requires Reached(limits, now, actions).jobs[id].record.final.Some?
    ensures var job := Reached(limits, now, actions).jobs[id];
            var q, f := job.query, job.record.final.value;
            var missing := q.mode.Normalized? && q.normalizer.None?;
            && (f.error == if missing && !q.versioned && !q.allowFallback then Some(NORMALIZER_NOT_AVAILABLE) else None)
            && (f.error.Some? ==> f.data.None? && f.artifact.None?)
            && (f.error.None? ==> (f.data.Some? <==> f.artifact.None?))
            && (f.error.None? && (missing || !q.mode.Normalized?) ==>
                  AnsweredByMessages(limits, q, f, job.received))
            && (f.error.None? && !missing && q.mode.Normalized? ==> AnsweredByTable(limits, q, f, job.received))
            && (NormalizerFallback in f.warnings <==> missing && f.error.None?)
            && (LargeResult in f.warnings <==> f.artifact.Some?) && |f.warnings| <= 2
            && job.outcome == Outcome(f.data, f.artifact, f.preview)
  {
    hide JobOk, FromMessages, FromTable, Answered, Bytes, AnsweredByMessages, AnsweredByTable;
    var s := Reached(limits, now, actions);
    ReachedOk(limits, now, actions);
    var job := s.jobs[id];
    AccountsOf(limits, job);
    var f := job.record.final.value;
    if f.error.None? {
      if FromMessages(limits, job.query, f, job.received) {
        MessagesAnswer(limits, job.query, f, job.received);
      } else {
        TableAnswers(limits, job.query, f, job.received);
      }
    }
  }

  lemma MessagesAnswer(limits: Limits, q: Query, f: FinalResult, received: seq<Message>)
    requires FromMessages(limits, q, f, received)
    ensures AnsweredByMessages(limits, q, f, received) && (q.mode.Normalized? ==> q.normalizer.None?)
  {
    hide Results, HoldsTheAnswer;
    ResultsAnswer(received);
  }

  lemma TableAnswers(limits: Limits, q: Query, f: FinalResult, received: seq<Message>)
    requires FromTable(limits, q, f, received)
    ensures AnsweredByTable(limits, q, f, received) && q.mode.Normalized? && q.normalizer.Some?
  {
  }

  /**
   Taking the response within the size limit finalizes the request, and there is a result, exactly unless the normalizer
   raises, or the result is too large to be inline (or was asked for as lines) and cannot be stored.
   */
  lemma ResponseIsFinalized(limits: Limits, job: Job, m: Message, stored: Option<string>, messages: seq<Message>)
    requires JobOk(limits, job) && job.phase.Consuming? && m.kind.Response?
    requires Bytes(job.received + [m]) <= limits.maxResponseBytes && HoldsTheAnswer(job.received + [m], messages)
    ensures var received, q := job.received + [m], job.query;
            var normalized := q.mode.Normalized? && q.normalizer.Some?;
            var broken := normalized && q.normalizer.value(received).None?;
            var data := if normalized && !broken then TableData(q.normalizer.value(received).value)
                        else MessageList(messages);
            var inline := !q.jsonl && limits.size(data) <= limits.inlineBytes;
            After(limits, job, Receive(m, stored)).record.final.Some? <==>
              (q.mode.Normalized? && q.normalizer.None? && !q.versioned && !q.allowFallback) ||
                (!broken && (inline || stored.Some?))
  {
    hide Results, Answered, StreamOk, Open, Overflowed, Partials, HoldsTheAnswer;
    ReceivedSnoc(job.received, m);
    AnswerIsUnique(job.received + [m], messages);
    FinalOf(limits, job.query, Complete(Append(job.record, m)), stored, job.received + [m]);
  }

  lemma FinalOf(limits: Limits, q: Query, r: Record, stored: Option<string>, received: seq<Message>)
    requires r.messages == received && r.final.None?
    ensures var normalized := q.mode.Normalized? && q.normalizer.Some?;
            var broken := normalized && q.normalizer.value(received).None?;
            var data := if normalized && !broken then TableData(q.normalizer.value(received).value)
                        else MessageList(Results(received));
            var finish := Finalize(limits, q, r, stored);
            finish.record.final.Some? <==>
              Unavailable(q) || (!broken && (Inline(limits, q, data) || stored.Some?))
  {
    hide Results;
  }

  // --------------------------------------------------------------------- replies

  /** What a reply tells of a result, beside its data: everything the result has. */
  ghost predicate RepliesWith(reply: RequestModel.Reply, r: Record, f: FinalResult) {
    && reply.status == r.status && reply.error == f.error
    && reply.data == f.data && reply.artifact == f.artifact
    && (f.artifact.Some? ==> reply.preview == f.preview) && (f.artifact.None? ==> reply.preview.None?)
    && reply.itemErrors == f.itemErrors && reply.warnings == f.warnings
  }

  /** Without a result a reply tells the status, and the error there is. */
  ghost predicate RepliesWithout(reply: RequestModel.Reply, r: Record) {
    && reply.status == r.status && reply.error == r.error
    && reply.data.None? && reply.artifact.None? && reply.preview.None?
  }

  /**
   The reply to a poll hands over the stored result, all of it, or the error. Inline messages,
     and the lines of a message
   artifact, are every partial and final response that was received.
   */
  lemma RepliesHoldTheAnswer(limits: Limits, now: int, actions: seq<Action>, id: RequestId)
    requires limits.maxResponseBytes >= 0 && id < |Reached(limits, now, actions).jobs|
    ensures var job := Reached(limits, now, actions).jobs[id];
            && (if job.record.final.Some? then RepliesWith(HandleSnapshot(job.record), job.record,
                                                           job.record.final.value)
                else RepliesWithout(HandleSnapshot(job.record), job.record))
            && forall reply | reply == HandleSnapshot(job.record) ||
                              (job.phase.Done? && reply == CompletedResult(job.record, job.outcome)) ::
                 && (reply.data.Some? && reply.data.value.MessageList? ==>
                       HoldsTheAnswer(job.received, reply.data.value.messages))
                 && (reply.artifact.Some? && reply.artifact.value.content.MessageLines? ==>
                       HoldsTheAnswer(job.received, reply.artifact.value.content.messages))
  {
    hide JobOk, AnsweredByTable, HoldsTheAnswer, Answered, Bytes, FromMessages, FromTable;
    ReachedOk(limits, now, actions);
    var job := Reached(limits, now, actions).jobs[id];
    AccountsOf(limits, job);
    if job.record.final.Some? {
      ResultIsAsAsked(limits, now, actions, id);
      var f := job.record.final.value;
      if f.error.None? && job.query.mode.Normalized? && job.query.normalizer.Some? {
        TableIsNoMessages(limits, job.query, f, job.received);
      }
    } else {
      NothingHanded(limits, job);
    }
  }

  lemma TableIsNoMessages(limits: Limits, q: Query, f: FinalResult, received: seq<Message>)
    requires AnsweredByTable(limits, q, f, received)
    ensures (f.data.Some? ==> f.data.value.TableData?) && (f.artifact.Some? ==> !f.artifact.value.content.MessageLines?)
  {
  }

  lemma NothingHanded(limits: Limits, job: Job)
    requires JobOk(limits, job) && job.record.final.None?
    ensures job.outcome == NOTHING
  {
    hide Answered, Bytes, Open, Overflowed, FromMessages, FromTable;
  }
}
