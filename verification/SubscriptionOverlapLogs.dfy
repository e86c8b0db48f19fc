/**
 The event logs of overlapping runs. Here nothing needs to be benign: whatever overlaps, the buffer of a group is the
 end of the log of its generation.
 */
module SubscriptionOverlapLogs {
  import opened Wrappers
  import opened SubscriptionModel
  import opened SubscriptionLog
  import opened SubscriptionSystem
  import opened SubscriptionFrames
  import opened SubscriptionSafety
  import opened SubscriptionReplace
  import opened SubscriptionOverlap
  import opened SubscriptionOverlapRuns

  /** The logs after a move: a new generation has an empty one, and a data event is added to the current one. */
  ghost function LogsAfter(s: Overlapping, m: Move, logs: Logs): Logs {
    if !May(s, m) then logs
    else
      match m
      case BeginCreate(_, principal, specs, retention, now) =>
        var result := CreateBegin(s.core, s.cfg, principal, specs, retention, now).1;
        if result.Ok? then logs[(result.value, 1) := []] else logs
      case BeginRestore(_, gid) => logs[(gid, s.core.groups[gid].generation + 1) := []]
      case Finish(f, ok) =>
        var flight := s.flights[f];
        if flight.op.Resubscribing? && ok then logs[(flight.gid, s.core.groups[flight.gid].generation + 1) := []]
        else logs
      case Arrive(event) => LogsArrive(s.core, event, logs)
      case _ => logs
  }

  ghost function LogsArrive(c: Core, event: Event, logs: Logs): Logs {
    var target := Target(c, event.token);
    if target.Some? && event.signal.Data? then
      var (gid, i) := target.value;
      var g := c.groups[gid];
      var log := if (gid, g.generation) in logs then logs[(gid, g.generation)] else [];
      logs[(gid, g.generation) := log + [LogEntry(g.items[i].id, event)]]
    else logs
  }

  ghost function AllLogs(s: Overlapping, moves: seq<Move>): Logs {
    if moves == [] then map[]
    else
      var init := moves[..|moves| - 1];
      LogsAfter(MakeAll(s, init), moves[|moves| - 1], AllLogs(s, init))
  }

  /** The items a replacement holds back are distinct and have seen nothing. */
  ghost predicate ItemsNew(op: Op) {
    op.Resubscribing? ==> Distinct(op.items) && forall item <- op.items :: item.sequence == 0
  }

  ghost predicate AllNew(flights: map<FlightId, Flight>) {
    forall f <- flights :: ItemsNew(flights[f].op)
  }

  lemma LogsQuiet(c: Core, c': Core, logs: Logs)
    requires LogsAgree(c.groups, logs, c.supply) && Quiet(c, c')
    ensures LogsAgree(c'.groups, logs, c'.supply)
  {
    forall gid <- c'.groups ensures gid < c'.supply && GroupAgrees(gid, c'.groups[gid], logs) {
      assert GroupAgrees(gid, c.groups[gid], logs);
      RelabelAgrees(c.groups[gid], c'.groups[gid], logs[(gid, c.groups[gid].generation)]);
    }
  }

  lemma CreateLogs(c: Core, cfg: Config, principal: string, specs: seq<Spec>, request: Option<RetentionRequest>,
                   now: int, logs: Logs)
    requires LogsAgree(c.groups, logs, c.supply) && cfg.maxBuffered >= 1
    ensures var (c', result) := CreateBegin(c, cfg, principal, specs, request, now);
            LogsAgree(c'.groups, if result.Ok? then logs[(result.value, 1) := []] else logs, c'.supply)
  {
    hide CreateError, Route, NewItems, Accepted, LogsAgree, Distinct;
    var (c', result) := CreateBegin(c, cfg, principal, specs, request, now);
    LogsSupply(c.groups, logs, c.supply, c'.supply);
    if result.Ok? {
      ModeIsKnown(c, cfg, principal, specs, request);
      NewItemsFacts(specs[..|specs|], c.tokenCounter, c.supply + 1);
      LogsCreate(c.groups, logs, c.supply, c'.supply, c'.groups[c.supply]);
    }
  }

  lemma ArriveLogs(c: Core, event: Event, logs: Logs)
    requires LogsAgree(c.groups, logs, c.supply)
    ensures LogsAgree(HandleEvent(c, event).groups, LogsArrive(c, event, logs), c.supply)
  {
    hide LogsAgree, Recompute;
    var target := Target(c, event.token);
    if target.Some? {
      var (gid, i) := target.value;
      if event.signal.Data? {
        LogsDeliver(c.groups, logs, c.supply, gid, i, event);
      } else {
        LogsRelabel(c.groups, logs, c.supply, gid, Deliver(c.groups[gid], i, event));
      }
    }
  }

  lemma RestoreLogs(c: Core, gid: GroupId, logs: Logs)
    requires LogsAgree(c.groups, logs, c.supply) && gid in c.groups
    ensures LogsAgree(RestoreBegin(c, gid).groups, logs[(gid, c.groups[gid].generation + 1) := []], c.supply)
  {
    hide LogsAgree, Route, Renewed, Tokens, Distinct;
    var g := c.groups[gid];
    ItemsDistinct(c, gid, logs);
    RenewedFacts(g.items, c.tokenCounter);
    LogsFresh(c.groups, logs, c.supply, gid, NextGeneration(g, Renewed(g.items, c.tokenCounter), GroupStatus.Starting));
  }

  lemma ItemsDistinct(c: Core, gid: GroupId, logs: Logs)
    requires LogsAgree(c.groups, logs, c.supply) && gid in c.groups
    ensures Distinct(c.groups[gid].items)
  {
    assert GroupAgrees(gid, c.groups[gid], logs);
  }

  lemma FinishLogs(c: Core, flight: Flight, ok: bool, logs: Logs)
    requires LogsAgree(c.groups, logs, c.supply) && flight.gid in c.groups && ItemsNew(flight.op)
    ensures var logs' := if flight.op.Resubscribing? && ok then
      logs[(flight.gid, c.groups[flight.gid].generation + 1) := []]
                         else logs;
            LogsAgree(Finished(c, flight, ok).groups, logs', c.supply)
  {
    hide LogsAgree, Route, Recompute, Tokens, Distinct;
    var g := c.groups[flight.gid];
    var c' := Finished(c, flight, ok);
    match flight.op
    case Creating(_, _) => LogsDrop(c.groups, logs, c.supply, flight.gid);
    case Resubscribing(_, _) =>
      if ok {
        LogsFresh(c.groups, logs, c.supply, flight.gid, c'.groups[flight.gid]);
      }
    case Cancelling(_) => LogsRelabel(c.groups, logs, c.supply, flight.gid, c'.groups[flight.gid]);
    case Expiring(_) => LogsRelabel(c.groups, logs, c.supply, flight.gid, c'.groups[flight.gid]);
    case Restoring(_, _) => LogsRelabel(c.groups, logs, c.supply, flight.gid, g.(status := GroupStatus.Failed));
  }

  lemma BeginLogs(s: Overlapping, m: Move, logs: Logs)
    requires LogsAgree(s.core.groups, logs, s.core.supply) && May(s, m)
    requires m.BeginResubscribe? || m.BeginCancel? || m.BeginExpire? || m.Settle?
    ensures LogsAgree(Make(s, m).core.groups, logs, Make(s, m).core.supply)
  {
    hide LogsAgree, NewItems, Tokens, Accepted, ResubscribeError, CancelBegin, BeingCreated;
    LogsQuiet(s.core, Make(s, m).core, logs);
  }

  lemma LookLogs(s: Overlapping, m: Move, logs: Logs)
    requires LogsAgree(s.core.groups, logs, s.core.supply) && May(s, m) && (m.BeginRead? || m.FinishRead?)
    ensures LogsAgree(Make(s, m).core.groups, logs, Make(s, m).core.supply)
  {
    hide LogsAgree, ReadBegin, ReadFinish, BeingCreated, Quiet;
    match m {
      case BeginRead(request, rid, now) => ReadBeginLooks(s.core, s.cfg, request, rid, now);
      case FinishRead(gid, position, limit, principal, rid, now) =>
        ReadFinishLooks(s.core, s.cfg, gid, position, limit, principal, rid, now);
    }
    LogsQuiet(s.core, Make(s, m).core, logs);
  }

  lemma MoveLogs(s: Overlapping, m: Move, logs: Logs)
    requires LogsAgree(s.core.groups, logs, s.core.supply) && AllNew(s.flights) && s.cfg.maxBuffered >= 1
    ensures LogsAgree(Make(s, m).core.groups, LogsAfter(s, m, logs), Make(s, m).core.supply)
  {
    hide LogsAgree, ItemsNew, CreateBegin, RestoreBegin, HandleEvent, LogsArrive, Finished, Benign, BeingCreated,
         Readable, ResubscribeBegin, CancelBegin, Tokens, ReadBegin, ReadFinish, NewItems;
    if May(s, m) {
      match m
      case BeginCreate(_, principal, specs, retention, now) =>
        CreateLogs(s.core, s.cfg, principal, specs, retention, now, logs);
      case BeginRestore(_, gid) =>
        RestoreLogs(s.core, gid, logs);
        RestoreSupply(s.core, gid);
      case Finish(f, ok) =>
        FinishLogs(s.core, s.flights[f], ok, logs);
        FinishSupply(s.core, s.flights[f], ok);
      case Arrive(event) =>
        ArriveLogs(s.core, event, logs);
        ArriveSupply(s.core, event);
      case BeginRead(_, _, _) => LookLogs(s, m, logs);
      case FinishRead(_, _, _, _, _, _) => LookLogs(s, m, logs);
      case _ => BeginLogs(s, m, logs);
    }
  }

  lemma RestoreSupply(c: Core, gid: GroupId)
    requires gid in c.groups
    ensures RestoreBegin(c, gid).supply == c.supply
  {
    hide Route, Renewed;
  }

  lemma FinishSupply(c: Core, flight: Flight, ok: bool)
    requires flight.gid in c.groups
    ensures Finished(c, flight, ok).supply == c.supply
  {
    hide Route, Recompute, Tokens;
  }

  lemma ArriveSupply(c: Core, event: Event)
    ensures HandleEvent(c, event).supply == c.supply
  {
    hide Deliver, Target;
  }

  lemma NewStays(s: Overlapping, m: Move)
    requires AllNew(s.flights)
    ensures AllNew(Make(s, m).flights)
  {
    hide CreateBegin, RestoreBegin, HandleEvent, Finished, Benign, BeingCreated, Readable, CancelBegin, Tokens,
         ReadBegin, ReadFinish, NewItems, ResubscribeError, Distinct;
    if m.BeginResubscribe? {
      NewItemsFacts(m.specs, s.core.tokenCounter, s.core.supply);
    }
  }

  lemma {:induction false} LogsThroughout(cfg: Config, moves: seq<Move>)
    requires cfg.maxBuffered >= 1
    ensures var s := MakeAll(Idle(cfg), moves);
            && LogsAgree(s.core.groups, AllLogs(Idle(cfg), moves), s.core.supply) && AllNew(s.flights) && s.cfg == cfg
  {
    hide Make, LogsAgree, AllNew, LogsAfter;
    if moves == [] {
      NothingLogged(cfg);
    } else {
      var init, m := moves[..|moves| - 1], moves[|moves| - 1];
      LogsThroughout(cfg, init);
      MoveLogs(MakeAll(Idle(cfg), init), m, AllLogs(Idle(cfg), init));
      NewStays(MakeAll(Idle(cfg), init), m);
      ConfigStays(MakeAll(Idle(cfg), init), m);
    }
  }

  lemma NothingLogged(cfg: Config)
    ensures LogsAgree(Idle(cfg).core.groups, map[], 0) && AllNew(Idle(cfg).flights) && Idle(cfg).core.supply == 0
  {
  }

  lemma ConfigStays(s: Overlapping, m: Move)
    ensures Make(s, m).cfg == s.cfg
  {
    hide CreateBegin, RestoreBegin, HandleEvent, Finished, Benign, BeingCreated, Readable, CancelBegin, Tokens,
         ReadBegin, ReadFinish, NewItems, ResubscribeBegin;
  }

  /** Whatever overlaps, buffer, counters, latest view and sequences are those of the log of the group's generation. */
  lemma OverlappingBuffersAgree(cfg: Config, moves: seq<Move>, gid: GroupId)
    requires cfg.maxBuffered >= 1
    ensures var groups, logs := MakeAll(Idle(cfg), moves).core.groups, AllLogs(Idle(cfg), moves);
            gid in groups ==>
              var g := groups[gid];
              var key := (gid, g.generation);
              && g.generation >= 1 && key in logs && g.total == |logs[key]|
              && Window(g.buffer, logs[key], g.maxEvents)
              && g.dropped == Evicted(logs, gid, g.generation, g.maxEvents)
              && (forall item <- g.items :: item.sequence == Count(logs[key], item.id))
              && (forall id <- g.latest :: g.latest[id] == Merge(logs[key], id))
  {
    hide MakeAll, AllLogs, Window, Evicted, Stamp;
    LogsThroughout(cfg, moves);
    var groups, logs := MakeAll(Idle(cfg), moves).core.groups, AllLogs(Idle(cfg), moves);
    assert gid in groups ==> GroupAgrees(gid, groups[gid], logs);
  }
}
