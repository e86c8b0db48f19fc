/** What holds of every run of the subscription registry. */
module SubscriptionTheorems {
  import opened Wrappers
  import opened Cursors
  import opened SubscriptionModel
  import opened SubscriptionLog
  import opened SubscriptionSystem
  import opened SubscriptionLedger
  import opened SubscriptionFrames
  import opened SubscriptionSafety
  import opened SubscriptionReads
  import opened SubscriptionReplace
  import opened SubscriptionRuns
  import opened SubscriptionSteps

  // ------------------------------------------------- buffer, counters and views

  /** The buffer is the end of the generation's log, and every event is either retained or counted as dropped. */
  lemma BufferIsTheEndOfTheLog(cfg: Config, actions: seq<Action>, gid: GroupId)
    requires cfg.maxBuffered >= 1
    ensures var s := Run(Start(cfg), actions);
            gid in s.core.groups ==>
              var g := s.core.groups[gid];
              var key := (gid, g.generation);
              && g.generation >= 1 && key in s.logs && g.total == |s.logs[key]|
              && Window(g.buffer, s.logs[key], g.maxEvents)
              && g.dropped == Evicted(s.logs, gid, g.generation, g.maxEvents)
              && g.total == |g.buffer| + (g.dropped - Evicted(s.logs, gid, g.generation - 1, g.maxEvents))
  {
    hide Run, Stamp, Views, Inv;
    var s := Run(Start(cfg), actions);
    Reachable(cfg, actions);
    if gid in s.core.groups {
      GroupInv(s, gid);
    }
  }

  /** The latest view, the item sequences and the sequence numbers are functions of the log, evicted events included. */
  lemma ViewsAgreeWithTheLog(cfg: Config, actions: seq<Action>, gid: GroupId)
    requires cfg.maxBuffered >= 1
    ensures var s := Run(Start(cfg), actions);
            gid in s.core.groups ==>
              var g := s.core.groups[gid];
              var key := (gid, g.generation);
              && key in s.logs
              && (forall item <- g.items :: item.sequence == Count(s.logs[key], item.id))
              && (forall id <- g.latest :: g.latest[id] == Merge(s.logs[key], id))
              && (forall id: ItemId | Count(s.logs[key], id) > 0 :: id in g.latest && id in Ids(g.items))
              && SumSequences(g.items) == g.total
  {
    hide Run, Window, Inv;
    var s := Run(Start(cfg), actions);
    Reachable(cfg, actions);
    if gid in s.core.groups {
      GroupInv(s, gid);
      var g := s.core.groups[gid];
      var log := s.logs[(gid, g.generation)];
      SequencesSumToTotal(g, log);
      forall id: ItemId | Count(log, id) > 0 ensures id in g.latest && id in Ids(g.items) {
        CountZero(log, id);
      }
    }
  }

  /** A stored cursor is of no later generation than its group, and of the current one only up to its last event. */
  lemma StoredCursorsAreWithin(cfg: Config, actions: seq<Action>, id: CursorId)
    requires cfg.maxBuffered >= 1
    ensures var s := Run(Start(cfg), actions);
            id in s.core.cursors.entries && s.core.cursors.entries[id].subscription in s.core.groups ==>
              var cursor := s.core.cursors.entries[id];
              var g := s.core.groups[cursor.subscription];
              cursor.generation <= g.generation && (cursor.generation == g.generation ==> cursor.offset <= g.total)
  {
    hide Run, LogsAgree, RoutingSound, TokensKept, FeedsKept, OpsFit, PagesAgree, ReadsParked;
    Reachable(cfg, actions);
  }

  // ----------------------------------------------------------- long polls

  /** No reader sleeps while there is an event it has not seen, and the slots are counted exactly. */
  lemma NoLostWakeUp(cfg: Config, actions: seq<Action>, gid: GroupId, rid: ReadId)
    requires cfg.maxBuffered >= 1
    ensures var s := Run(Start(cfg), actions);
            && (gid in s.core.groups && rid in s.core.groups[gid].waiters ==>
                  rid in s.parked && s.parked[rid].gid == gid
                    && s.core.groups[gid].total <= s.parked[rid].position.offset)
            && s.core.longPolls == |s.parked| <= s.cfg.maxLongPolls
  {
    hide Run, LogsAgree, RoutingSound, TokensKept, FeedsKept, OpsFit, CursorsBounded, PagesAgree, ReadsParked;
    var s := Run(Start(cfg), actions);
    Reachable(cfg, actions);
    if gid in s.core.groups {
      GroupInv(s, gid);
    }
  }

  // -------------------------------------------------------------- routing

  /** A routing entry of a registered group names an item that carries the token now, in a group that is not over. */
  lemma RoutingIsSound(cfg: Config, actions: seq<Action>, t: Token)
    requires cfg.maxBuffered >= 1
    ensures var s := Run(Start(cfg), actions);
            t in s.core.tokenMap && s.core.tokenMap[t].0 in s.core.groups ==>
              var g := s.core.groups[s.core.tokenMap[t].0];
              Carries(g, s.core.tokenMap[t].1, t) && !g.status.Terminal() && t !in s.core.pending
  {
    hide Run, LogsAgree, FeedsKept, OpsFit, CursorsBounded, PagesAgree, ReadsParked, Carries;
    var s := Run(Start(cfg), actions);
    Reachable(cfg, actions);
    if t in s.core.tokenMap {
      assert EntrySound(s.core.groups, t, s.core.tokenMap[t]);
    }
  }

  /** A retired token is never routed again: no native event that bears it ever changes any state. */
  lemma RetirementIsPermanent(s: System, actions: seq<Action>, event: Event)
    requires Inv(s) && IsRetired(s, event.token)
    ensures var s' := Run(s, actions);
            event.token !in s'.core.tokenMap && HandleEvent(s'.core, event) == s'.core && Next(s', Native(event)) == s'
  {
    hide Inv, Run, Retired;
    RunOnward(s, actions);
    RetiredUnrouted(Run(s, actions), event.token);
  }

  lemma RetiredUnrouted(s: System, t: Token)
    requires IsRetired(s, t)
    ensures t !in s.core.tokenMap
  {
  }

  /** The steps that take the tokens of this group away from it. */
  ghost predicate Retires(s: System, a: Action, gid: GroupId) {
    Enabled(s, a) &&
    match a
    case Restore(h) => h == gid
    case CancelDone(h, _) => h == gid
    case ExpireDone(h, _) => h == gid
    case ResubscribeDone(h, outcome) => h == gid && outcome.Succeeded?
    case _ => false
  }

  ghost predicate IsRetired(s: System, t: Token) {
    Retired(s.core.tokenCounter, s.core.tokenMap.Keys, Prospective(s.ops), t)
  }

  /** Replacing, cancelling, expiring and restoring retire every token the group carried. */
  lemma CarriedTokensRetire(s: System, a: Action, gid: GroupId, t: Token)
    requires Inv(s) && gid in s.core.groups && t in Tokens(s.core.groups[gid].items) && Retires(s, a, gid)
    ensures IsRetired(Next(s, a), t)
  {
    hide Inv, OnCancelDone, OnExpireDone, OnRestore, OnResubscribeDone, Retired, Tokens, Prospective, Fits;
    match a
    case Restore(_) => RestoreRetires(s, gid, t);
    case CancelDone(_, ok) => CancelRetires(s, gid, ok, t);
    case ExpireDone(_, ok) => ExpireRetires(s, gid, ok, t);
    case ResubscribeDone(_, outcome) => ResubscribeRetires(s, gid, outcome, t);
  }

  lemma CancelRetires(s: System, gid: GroupId, ok: bool, t: Token)
    requires Inv(s) && gid in s.ops && s.ops[gid].Cancelling? && gid in s.core.groups
    requires t in Tokens(s.core.groups[gid].items)
    ensures IsRetired(OnCancelDone(s, gid, ok), t)
  {
    hide Inv, Tokens, Prospective;
    CarriedUnheld(s, gid, t);
    OpInFlight(s, gid);
    OpDrop(s.ops, gid);
  }

  lemma ExpireRetires(s: System, gid: GroupId, ok: bool, t: Token)
    requires Inv(s) && gid in s.ops && s.ops[gid].Expiring? && gid in s.core.groups
    requires t in Tokens(s.core.groups[gid].items)
    ensures IsRetired(OnExpireDone(s, gid, ok), t)
  {
    hide Inv, Tokens, Prospective;
    CarriedUnheld(s, gid, t);
    OpInFlight(s, gid);
    OpDrop(s.ops, gid);
  }

  lemma ResubscribeRetires(s: System, gid: GroupId, outcome: Outcome, t: Token)
    requires Inv(s) && gid in s.ops && s.ops[gid].Resubscribing? && gid in s.core.groups && outcome.Succeeded?
    requires t in Tokens(s.core.groups[gid].items)
    ensures IsRetired(OnResubscribeDone(s, gid, outcome), t)
  {
    hide Inv, Tokens, Prospective, Route, Recompute, Invalidate;
    var left := s.core.tokenMap - Tokens(s.core.groups[gid].items);
    CarriedUnheld(s, gid, t);
    ProspectiveUnrouted(s, gid);
    OpDrop(s.ops, gid);
    RouteKeys(left, gid, s.ops[gid].items);
    assert t !in left;
  }

  lemma RestoreRetires(s: System, gid: GroupId, t: Token)
    requires Inv(s) && gid !in s.ops && gid in s.core.groups
    requires t in Tokens(s.core.groups[gid].items)
    ensures IsRetired(OnRestore(s, gid), t)
  {
    hide Inv, Tokens, Prospective, Route, Renewed, Invalidate, Distinct;
    var g := s.core.groups[gid];
    var items := Renewed(g.items, s.core.tokenCounter);
    var left := s.core.tokenMap - Tokens(g.items);
    CarriedUnheld(s, gid, t);
    RenewedItems(s, gid);
    OpPut(s.ops, gid, Restoring(Tokens(items), false));
    RouteKeys(left, gid, items);
    assert t !in left;
  }

  lemma CarriedUnheld(s: System, gid: GroupId, t: Token)
    requires Inv(s) && gid in s.core.groups && t in Tokens(s.core.groups[gid].items)
    ensures t <= s.core.tokenCounter
    ensures forall h <- Prospective(s.ops) :: t !in Prospective(s.ops)[h]
  {
    hide LogsAgree, RoutingSound, FeedsKept, OpsFit, CursorsBounded, ReadsParked, PagesAgree, Tokens, Prospective;
    assert Carried(s.core.groups)[gid] == Tokens(s.core.groups[gid].items);
  }

  /**
   Cancelled is for ever; expired can only become cancelled; and neither leaves the registry or shows another event.
   */
  lemma TerminalIsAbsorbing(s: System, actions: seq<Action>, gid: GroupId)
    requires Inv(s) && gid in s.core.groups && s.core.groups[gid].status.Terminal()
    ensures var s' := Run(s, actions);
            gid in s'.core.groups &&
              var g, g' := s.core.groups[gid], s'.core.groups[gid];
              && g'.status.Terminal() && (g.status.Cancelled? ==> g'.status.Cancelled?)
              && g'.generation == g.generation && g'.total == g.total && g'.buffer == g.buffer && g'.latest == g.latest
              && g'.dropped == g.dropped
  {
    hide Inv, Run;
    RunOnward(s, actions);
    TerminalStays(s, actions, gid);
  }

  // ------------------------------------------------------------- rollbacks

  /**
   When its generation or the group ends, every cursor it was read with is destroyed for ever, and no other cursor is.
   */
  lemma CursorsEndWithTheGeneration(s: System, a: Action, gid: GroupId, id: CursorId, actions: seq<Action>)
    requires Inv(s) && gid in s.core.groups && Retires(s, a, gid) && id in s.issued
    ensures id in Next(s, a).core.cursors.entries <==> id in s.core.cursors.entries && s.issued[id].subscription != gid
    ensures s.issued[id].subscription == gid ==> id !in Run(Next(s, a), actions).core.cursors.entries
  {
    hide Inv, Run, Next, Retires;
    StoredAsIssued(s, id);
    RetiringInvalidates(s, a, gid);
    NextKeeps(s, a);
    NextOnward(s, a);
    RunOnward(Next(s, a), actions);
  }

  lemma RetiringInvalidates(s: System, a: Action, gid: GroupId)
    requires gid in s.core.groups && Retires(s, a, gid)
    ensures Next(s, a).core.cursors == Invalidate(s.core.cursors, gid)
  {
    hide Invalidate, Tokens, Route, Recompute, Renewed, WithStatus, Fits;
  }

  /** A create that fails at once puts the registry back as it was, except for the numbers it drew. */
  lemma FailedCreateRollsBack(s: System, principal: string, specs: seq<Spec>, retention: Option<RetentionRequest>,
                              now: int, left: set<Token>, rolledBack: bool)
    requires Inv(s) && CreateBegin(s.core, s.cfg, principal, specs, retention, now).1.Ok?
    requires left <= Tokens(NewItems(specs, s.core.tokenCounter, s.core.supply + 1))
    ensures var begun := Next(s, Create(principal, specs, retention, now));
            var s' := Next(begun, CreateDone(s.core.supply, Raised(left, rolledBack)));
            && s'.core == s.core.(tokenCounter := begun.core.tokenCounter, supply := begun.core.supply)
            && s'.ops == s.ops && s'.parked == s.parked && s'.live == s.live + left
  {
    hide Inv, NewItems, Tokens, CreateBegin, CreateAbort;
    var gid := s.core.supply;
    var items := NewItems(specs, s.core.tokenCounter, gid + 1);
    NextIdUnused(s);
    AbortUndoes(s, principal, specs, retention, now);
    assert s.ops[gid := Creating(Tokens(items), false)] - {gid} == s.ops;
  }

  lemma AbortUndoes(s: System, principal: string, specs: seq<Spec>, retention: Option<RetentionRequest>, now: int)
    requires Inv(s) && CreateBegin(s.core, s.cfg, principal, specs, retention, now).1.Ok?
    ensures var (core, result) := CreateBegin(s.core, s.cfg, principal, specs, retention, now);
            && result == Ok(s.core.supply) && core.pending == s.core.pending
            && CreateAbort(core, s.core.supply, Tokens(NewItems(specs, s.core.tokenCounter, s.core.supply + 1))) ==
                 s.core.(tokenCounter := core.tokenCounter, supply := core.supply)
  {
    hide Inv, Route, NewItems, Tokens, CreateError, Accepted;
    var gid := s.core.supply;
    var items := NewItems(specs, s.core.tokenCounter, gid + 1);
    assert specs[..|specs|] == specs;
    NextIdUnused(s);
    NewItemsFacts(specs, s.core.tokenCounter, gid + 1);
    UnroutedAgain(s, gid, items);
    NoRefusal(s.core, s.cfg, principal, specs, retention);
    var g := NewGroup(s.cfg, principal, items, retention, RequestedRetention(retention).value, now);
    assert s.core.groups[gid := g] - {gid} == s.core.groups;
  }

  lemma UnroutedAgain(s: System, gid: GroupId, items: seq<Item>)
    requires Inv(s) && Fresh(Tokens(items), s.core.tokenCounter, s.core.tokenCounter + |items|)
    ensures Route(s.core.tokenMap, gid, items) - Tokens(items) == s.core.tokenMap
  {
    hide LogsAgree, RoutingSound, FeedsKept, OpsFit, CursorsBounded, ReadsParked, PagesAgree, Tokens, Route, Carried,
         Prospective;
    RouteKeys(s.core.tokenMap, gid, items);
    forall t <- s.core.tokenMap
      ensures t !in Tokens(items) && Route(s.core.tokenMap, gid, items)[t] == s.core.tokenMap[t] {
      RouteEntries(s.core.tokenMap, gid, items, t);
    }
  }

  /** Once a create has failed, no registered group ever has its id and none of its tokens is ever routed. */
  lemma FailedCreateIsGone(s: System, gid: GroupId, outcome: Outcome, actions: seq<Action>, t: Token)
    requires Inv(s) && Enabled(s, CreateDone(gid, outcome)) && outcome.Raised?
    ensures var s' := Run(Next(s, CreateDone(gid, outcome)), actions);
            gid !in s'.core.groups && (t in s.ops[gid].tokens ==> t !in s'.core.tokenMap)
  {
    hide Inv, Run, Tokens, Retired;
    var s1 := Next(s, CreateDone(gid, outcome));
    NextKeeps(s, CreateDone(gid, outcome));
    RunOnward(s1, actions);
    OpInFlight(s, gid);
    GroupInv(s, gid);
    if t in s.ops[gid].tokens {
      CreatedIsRetired(s, gid, outcome, t);
      RetiredUnrouted(Run(s1, actions), t);
    }
  }

  lemma CreatedIsRetired(s: System, gid: GroupId, outcome: Outcome, t: Token)
    requires Inv(s) && gid in s.ops && s.ops[gid].Creating? && outcome.Raised? && t in s.ops[gid].tokens
    ensures IsRetired(OnCreateDone(s, gid, outcome), t)
  {
    hide Inv, Tokens, Prospective;
    OpInFlight(s, gid);
    CarriedUnheld(s, gid, t);
    OpDrop(s.ops, gid);
  }

  /** A restore that fails leaves a FAILED group with nothing routed to it, and its new tokens are retired. */
  lemma FailedRestoreIsUnrouted(s: System, gid: GroupId, outcome: Outcome, t: Token)
    requires Inv(s) && Enabled(s, RestoreDone(gid, outcome)) && outcome.Raised?
    ensures var s' := Next(s, RestoreDone(gid, outcome));
            && s'.core.groups == s.core.groups[gid := s.core.groups[gid].(status := GroupStatus.Failed)]
            && !(t in s'.core.tokenMap && s'.core.tokenMap[t].0 == gid)
            && (t in Tokens(s.core.groups[gid].items) ==> IsRetired(s', t))
  {
    hide Inv, Tokens, Prospective, Carries, Fits;
    OpInFlight(s, gid);
    OpDrop(s.ops, gid);
    if t in Tokens(s.core.groups[gid].items) {
      CarriedUnheld(s, gid, t);
    } else {
      NotCarriedNotRouted(s, gid, t);
    }
  }

  lemma NotCarriedNotRouted(s: System, gid: GroupId, t: Token)
    requires Inv(s) && gid in s.core.groups && t !in Tokens(s.core.groups[gid].items)
    ensures !(t in s.core.tokenMap && s.core.tokenMap[t].0 == gid)
  {
    hide LogsAgree, TokensKept, FeedsKept, OpsFit, CursorsBounded, ReadsParked, PagesAgree;
    if t in s.core.tokenMap {
      assert EntrySound(s.core.groups, t, s.core.tokenMap[t]);
    }
  }
}
