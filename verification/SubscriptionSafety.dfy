/** Every action keeps the invariant, so every run does. */
module SubscriptionSafety {
  import opened Wrappers
  import opened Cursors
  import opened SubscriptionModel
  import opened SubscriptionLog
  import opened SubscriptionSystem
  import opened SubscriptionLedger
  import opened SubscriptionFrames

  lemma StartKeeps(cfg: Config)
    requires cfg.maxBuffered >= 1
    ensures Inv(Start(cfg))
  {
    var s := Start(cfg);
    assert Carried(s.core.groups) == map[];
    assert Prospective(s.ops) == map[];
    assert Unaccepted(s.ops) == map[];
  }

  lemma NewItemsFacts(specs: seq<Spec>, counter: nat, supply: nat)
    ensures var items := NewItems(specs, counter, supply);
            && Distinct(items)
            && (forall item <- items :: item.sequence == 0)
            && Fresh(Tokens(items), counter, counter + |specs|)
  {
  }

  /** The next id has never been used. */
  lemma NextIdUnused(s: System)
    requires Inv(s)
    ensures s.core.supply !in s.core.groups && s.core.supply !in s.ops
  {
    hide TokensKept, FeedsKept, CursorsBounded, ReadsParked, PagesAgree, RoutingSound;
    assert s.core.supply in s.ops ==> OpFits(s.core.groups, s.core.tokenMap.Keys, s.core.supply, s.ops[s.core.supply]);
  }

  lemma OpInFlight(s: System, gid: GroupId)
    requires Inv(s) && gid in s.ops
    ensures OpFits(s.core.groups, s.core.tokenMap.Keys, gid, s.ops[gid])
  {
    hide LogsAgree, RoutingSound, TokensKept, FeedsKept, CursorsBounded, ReadsParked, PagesAgree, OpFits;
  }

  lemma GroupInv(s: System, gid: GroupId)
    requires Inv(s) && gid in s.core.groups
    ensures gid < s.core.supply && GroupAgrees(gid, s.core.groups[gid], s.logs)
    ensures |s.core.groups[gid].buffer| <= s.core.groups[gid].total
    ensures WaitersCaughtUp(gid, s.core.groups[gid], s.parked)
    ensures gid in Carried(s.core.groups) && Carried(s.core.groups)[gid] == Tokens(s.core.groups[gid].items)
    ensures Below(Tokens(s.core.groups[gid].items), s.core.tokenCounter)
  {
    hide RoutingSound, FeedsKept, CursorsBounded, PagesAgree, OpsFit;
    assert Carried(s.core.groups)[gid] == Tokens(s.core.groups[gid].items);
  }

  /** Operations of other groups do not notice what happens to one group. */
  lemma OpsAfter(s: System, gid: GroupId, groups': Groups, routed': set<Token>, ops': map<GroupId, Op>)
    requires Inv(s)
    requires Elsewhere(s.ops, ops', gid) && Elsewhere(s.core.groups, groups', gid)
    requires s.core.tokenMap.Keys - (if gid in s.core.groups then Tokens(s.core.groups[gid].items) else {}) <= routed'
    requires gid in ops' ==> OpFits(groups', routed', gid, ops'[gid])
    ensures OpsFit(groups', routed', ops')
  {
    var carried := Carried(s.core.groups);
    forall h <- ops' ensures OpFits(groups', routed', h, ops'[h]) {
      if h != gid {
        assert OpFits(s.core.groups, s.core.tokenMap.Keys, h, s.ops[h]);
        assert gid in carried ==> carried[gid] !! carried[h];
      }
    }
  }

  /** Parked reads of other groups do not notice either. */
  lemma ReadsAfter(s: System, gid: GroupId, groups': Groups, ops': map<GroupId, Op>)
    requires Inv(s)
    requires Elsewhere(s.ops, ops', gid) && Elsewhere(s.core.groups, groups', gid)
    requires gid in groups' ==> WaitersCaughtUp(gid, groups'[gid], s.parked)
    requires gid !in groups' && gid in s.core.groups ==> gid in s.ops && s.ops[gid].Creating?
    requires gid in ops' && ops'[gid].Creating? ==> gid !in s.core.groups
    ensures ReadsParked(groups', ops', s.parked, s.issued)
  {
    forall rid <- s.parked ensures ParkedFits(s.parked[rid], groups', ops', s.issued) {
      assert ParkedFits(s.parked[rid], s.core.groups, s.ops, s.issued);
    }
    forall h <- groups' ensures WaitersCaughtUp(h, groups'[h], s.parked) {
      if h != gid {
        assert WaitersCaughtUp(h, s.core.groups[h], s.parked);
      }
    }
  }

  /** The invariant, clause by clause. */
  lemma Conjoins(s: System, s': System)
    requires Inv(s) && s'.cfg == s.cfg && s'.parked == s.parked && s'.core.longPolls == s.core.longPolls
    requires LogsAgree(s'.core.groups, s'.logs, s'.core.supply)
    requires RoutingSound(s'.core.groups, s'.core.tokenMap, s'.core.supply)
    requires TokensKept(s'.core.tokenCounter, Carried(s'.core.groups), Prospective(s'.ops), s'.core.tokenMap.Keys,
                        s'.core.pending)
    requires FeedsKept(s'.core.tokenCounter, Unaccepted(s'.ops), s'.live)
    requires OpsFit(s'.core.groups, s'.core.tokenMap.Keys, s'.ops)
    requires CursorsBounded(s'.core.cursors, s'.issued, s'.core.groups, s'.core.supply)
    requires ReadsParked(s'.core.groups, s'.ops, s'.parked, s'.issued)
    requires PagesAgree(s'.pages, s'.logs, s'.issued)
    ensures Inv(s')
  {
    hide LogsAgree, RoutingSound, TokensKept, FeedsKept, OpsFit, CursorsBounded, ReadsParked, PagesAgree;
    hide Carried, Prospective, Unaccepted;
  }

  // ----------------------------------------------------------------- create

  lemma CreateKeeps(s: System, principal: string, specs: seq<Spec>, retention: Option<RetentionRequest>, now: int)
    requires Inv(s)
    ensures Inv(OnCreate(s, principal, specs, retention, now))
  {
    hide LogsAgree, RoutingSound, TokensKept, FeedsKept, OpsFit, CursorsBounded, ReadsParked, PagesAgree;
    hide Carried, Prospective, Unaccepted, Tokens, Route, Fresh, NewItems, Accepted;
    var c := s.core;
    if CreateError(c, s.cfg, principal, specs, retention).None? {
      var n := Accepted(specs, s.cfg);
      var items := NewItems(specs[..n], c.tokenCounter, c.supply + 1);
      NewItemsFacts(specs[..n], c.tokenCounter, c.supply + 1);
      if n < |specs| {
        CreateRefusedKeeps(s, items, n);
      } else {
        assert specs[..n] == specs;
        CreateAdmittedKeeps(s, items, NewGroup(s.cfg, principal, items, retention, RequestedRetention(retention).value,
                                               now));
      }
    }
  }

  lemma RefusedLedgers(s: System, items: seq<Item>, n: nat)
    requires Inv(s) && Fresh(Tokens(items), s.core.tokenCounter, s.core.tokenCounter + n)
    ensures var c := s.core;
            var routed := c.tokenMap.Keys + Tokens(items);
            && TokensKept(c.tokenCounter + n, Carried(c.groups), Prospective(s.ops), routed, c.pending)
            && FeedsKept(c.tokenCounter + n, Unaccepted(s.ops), s.live)
  {
    hide LogsAgree, RoutingSound, TokensKept, FeedsKept, OpsFit, CursorsBounded, ReadsParked, PagesAgree;
    hide Carried, Prospective, Unaccepted, Tokens, Fresh;
    var c := s.core;
    Adopt(c.tokenCounter, c.tokenCounter + n, Carried(c.groups), Prospective(s.ops), c.tokenMap.Keys, c.pending,
          c.supply, Tokens(items), {});
    FeedsDropped(c.tokenCounter, c.tokenCounter + n, Unaccepted(s.ops), s.live, c.supply, s.live);
  }

  lemma RefusedViews(s: System, items: seq<Item>, supply': nat)
    requires Inv(s) && supply' > s.core.supply
    ensures var c := s.core;
            var routed := Route(c.tokenMap, c.supply, items);
            && routed.Keys == c.tokenMap.Keys + Tokens(items)
            && LogsAgree(c.groups, s.logs, supply') && RoutingSound(c.groups, routed, supply')
            && CursorsBounded(c.cursors, s.issued, c.groups, supply') && OpsFit(c.groups, routed.Keys, s.ops)
  {
    hide LogsAgree, RoutingSound, TokensKept, FeedsKept, OpsFit, CursorsBounded, ReadsParked, PagesAgree;
    hide Carried, Prospective, Unaccepted, Tokens, Route;
    var c := s.core;
    var gid := c.supply;
    NextIdUnused(s);
    RouteKeys(c.tokenMap, gid, items);
    LogsSupply(c.groups, s.logs, c.supply, supply');
    RoutingStray(c.groups, c.tokenMap, c.supply, supply', gid, items);
    CursorsProgress(c.cursors, c.cursors, s.issued, c.groups, c.groups, c.supply, supply');
    OpsAfter(s, gid, c.groups, Route(c.tokenMap, gid, items).Keys, s.ops);
  }

  /** A spec refused late leaves routing entries of a group that will never exist. */
  lemma CreateRefusedKeeps(s: System, items: seq<Item>, n: nat)
    requires Inv(s) && Fresh(Tokens(items), s.core.tokenCounter, s.core.tokenCounter + n)
    ensures var gid := s.core.supply;
            Inv(s.(core := s.core.(tokenMap := Route(s.core.tokenMap, gid, items),
                                   tokenCounter := s.core.tokenCounter + n, supply := gid + 1 + n)))
  {
    hide Inv, LogsAgree, RoutingSound, TokensKept, FeedsKept, OpsFit, CursorsBounded, ReadsParked, PagesAgree;
    hide Carried, Prospective, Unaccepted, Tokens, Route, Fresh;
    RefusedLedgers(s, items, n);
    RefusedViews(s, items, s.core.supply + 1 + n);
    ParkedReadsKept(s);
    Conjoins(s, s.(core := s.core.(tokenMap := Route(s.core.tokenMap, s.core.supply, items),
                                   tokenCounter := s.core.tokenCounter + n, supply := s.core.supply + 1 + n)));
  }

  lemma ParkedReadsKept(s: System)
    requires Inv(s)
    ensures ReadsParked(s.core.groups, s.ops, s.parked, s.issued) && PagesAgree(s.pages, s.logs, s.issued)
  {
    hide LogsAgree, RoutingSound, TokensKept, FeedsKept, OpsFit, CursorsBounded, ReadsParked, PagesAgree;
  }

  /** A new group: the routing and the ledgers. */
  lemma CreateLedgers(s: System, items: seq<Item>, g: Group, op: Op)
    requires Inv(s) && g.items == items && g.status == GroupStatus.Starting && op == Creating(Tokens(items), false)
    requires Fresh(Tokens(items), s.core.tokenCounter, s.core.tokenCounter + |items|)
    ensures var c := s.core;
            var gid := c.supply;
            var groups' := c.groups[gid := g];
            var routed := Route(c.tokenMap, gid, items);
            && routed.Keys == c.tokenMap.Keys + Tokens(items)
            && RoutingSound(groups', routed, gid + 1 + |items|)
            && TokensKept(c.tokenCounter + |items|, Carried(groups'), Prospective(s.ops[gid := op]), routed.Keys,
                          c.pending)
            && FeedsKept(c.tokenCounter + |items|, Unaccepted(s.ops[gid := op]), s.live)
  {
    hide LogsAgree, RoutingSound, TokensKept, FeedsKept, OpsFit, CursorsBounded, ReadsParked, PagesAgree;
    hide Carried, Prospective, Unaccepted, Tokens, Route;

    var c := s.core;
    var gid := c.supply;
    var n := |items|;
    NextIdUnused(s);
    RouteKeys(c.tokenMap, gid, items);
    CreateRouted(s, gid, g);
    CarriedPut(c.groups, gid, g);
    OpPut(s.ops, gid, op);
    Adopt(c.tokenCounter, c.tokenCounter + n, Carried(c.groups), Prospective(s.ops), c.tokenMap.Keys, c.pending,
          gid, Tokens(items), {});
    FeedsAwaited(c.tokenCounter, c.tokenCounter + n, Unaccepted(s.ops), s.live, gid, Tokens(items));
  }

  /** A new group: its log, its operation, its readers and the cursors. */
  lemma CreateViews(s: System, g: Group, supply': nat, routed: set<Token>, op: Op)
    requires Inv(s) && supply' > s.core.supply && op == Creating(Tokens(g.items), false)
    requires Distinct(g.items) && s.core.tokenMap.Keys + Tokens(g.items) <= routed
    requires forall item <- g.items :: item.sequence == 0
    requires g.generation == 1 && g.status == GroupStatus.Starting && g.dropped == 0 && g.maxEvents >= 1
    requires g.total == 0 && g.buffer == [] && g.latest == map[] && g.waiters == {}
    ensures var gid := s.core.supply;
            var groups', ops', logs' := s.core.groups[gid := g], s.ops[gid := op], s.logs[(gid, 1) := []];
            && LogsAgree(groups', logs', supply')
            && OpsFit(groups', routed, ops')
            && CursorsBounded(s.core.cursors, s.issued, groups', supply')
            && ReadsParked(groups', ops', s.parked, s.issued)
            && PagesAgree(s.pages, logs', s.issued)
  {
    hide LogsAgree, RoutingSound, TokensKept, FeedsKept, OpsFit, CursorsBounded, ReadsParked, PagesAgree;
    hide Carried, Prospective, Unaccepted, Tokens, Route;
    hide Distinct, LogsGrow, Elsewhere;
    var c := s.core;
    var gid := c.supply;
    var groups', ops' := c.groups[gid := g], s.ops[gid := op];
    NextIdUnused(s);
    LogsCreate(c.groups, s.logs, gid, supply', g);
    ElsewherePut(s.ops, gid, op);
    ElsewherePut(c.groups, gid, g);
    OpsAfter(s, gid, groups', routed, ops');
    ReadsAfter(s, gid, groups', ops');
    CursorsProgress(c.cursors, c.cursors, s.issued, c.groups, groups', c.supply, supply');
    CreateLogsGrow(s);
    PagesStay(s.pages, s.logs, s.logs[(gid, 1) := []], s.issued, s.issued);
  }

  lemma CreateAdmittedKeeps(s: System, items: seq<Item>, g: Group)
    requires Inv(s)
    requires Distinct(items) && Fresh(Tokens(items), s.core.tokenCounter, s.core.tokenCounter + |items|)
    requires forall item <- items :: item.sequence == 0
    requires g.items == items && g.generation == 1 && g.status == GroupStatus.Starting && g.dropped == 0
             && g.maxEvents >= 1
    requires g.total == 0 && g.buffer == [] && g.latest == map[] && g.waiters == {}
    ensures var gid := s.core.supply;
            Inv(s.(core := s.core.(groups := s.core.groups[gid := g], tokenMap := Route(s.core.tokenMap, gid, items),
                                   tokenCounter := s.core.tokenCounter + |items|, supply := gid + 1 + |items|),
                   ops := s.ops[gid := Creating(Tokens(items), false)],
                   logs := s.logs[(gid, 1) := []]))
  {
    hide LogsAgree, RoutingSound, TokensKept, FeedsKept, OpsFit, CursorsBounded, ReadsParked, PagesAgree;
    hide Carried, Prospective, Unaccepted, Tokens, Route;
    hide Distinct;
    var op := Creating(Tokens(items), false);
    CreateLedgers(s, items, g, op);
    CreateViews(s, g, s.core.supply + 1 + |items|, Route(s.core.tokenMap, s.core.supply, items).Keys, op);
  }

  lemma CreateRouted(s: System, gid: GroupId, g: Group)
    requires Inv(s) && gid == s.core.supply && g.status == GroupStatus.Starting
    ensures RoutingSound(s.core.groups[gid := g], Route(s.core.tokenMap, gid, g.items), gid + 1 + |g.items|)
  {
    hide LogsAgree, TokensKept, FeedsKept, OpsFit, CursorsBounded, ReadsParked, PagesAgree, Route;
    RoutingAdopt(s.core.groups, s.core.tokenMap, gid + 1, gid, g);
  }

  lemma CreateLogsGrow(s: System)
    requires Inv(s)
    ensures LogsGrow(s.logs, s.logs[(s.core.supply, 1) := []])
  {
    hide RoutingSound, TokensKept, FeedsKept, OpsFit, CursorsBounded, ReadsParked, PagesAgree;
  }

  lemma CreateDoneKeeps(s: System, gid: GroupId, outcome: Outcome)
    requires Inv(s) && gid in s.ops && s.ops[gid].Creating? && Fits(s.ops[gid], outcome)
    ensures Inv(OnCreateDone(s, gid, outcome))
  {
    hide LogsAgree, RoutingSound, TokensKept, FeedsKept, OpsFit, CursorsBounded, ReadsParked, PagesAgree;
    hide Carried, Prospective, Unaccepted, Tokens, Route;
    var c := s.core;
    var ops' := s.ops - {gid};
    OpInFlight(s, gid);
    GroupInv(s, gid);
    OpDrop(s.ops, gid);
    Release(c.tokenCounter, Carried(c.groups), Prospective(s.ops), c.tokenMap.Keys, c.pending, gid, c.tokenMap.Keys,
            c.pending);
    if outcome.Succeeded? {
      FeedsDropped(c.tokenCounter, c.tokenCounter, Unaccepted(s.ops), s.live, gid, s.live);
      OpsAfter(s, gid, c.groups, c.tokenMap.Keys, ops');
      ReadsAfter(s, gid, c.groups, ops');
    } else {
      CreateAbortKeeps(s, gid, outcome.left);
    }
  }

  lemma CreateAbortKeeps(s: System, gid: GroupId, left: set<Token>)
    requires Inv(s) && gid in s.ops && s.ops[gid].Creating? && !s.ops[gid].accepted && left <= s.ops[gid].tokens
    ensures Inv(s.(core := CreateAbort(s.core, gid, s.ops[gid].tokens), ops := s.ops - {gid}, live := s.live + left))
  {
    hide LogsAgree, RoutingSound, TokensKept, FeedsKept, OpsFit, CursorsBounded, ReadsParked, PagesAgree;
    hide Carried, Prospective, Unaccepted, Tokens, Route;
    var c := s.core;
    var ops' := s.ops - {gid};
    var groups' := c.groups - {gid};
    OpInFlight(s, gid);
    GroupInv(s, gid);
    OpDrop(s.ops, gid);
    var tokenMap' := c.tokenMap - s.ops[gid].tokens;
    assert tokenMap'.Keys == c.tokenMap.Keys - Tokens(c.groups[gid].items);
    CarriedDrop(c.groups, gid);
    Release(c.tokenCounter, Carried(c.groups), Prospective(s.ops), c.tokenMap.Keys, c.pending, gid, c.tokenMap.Keys,
            c.pending);
    Retire(c.tokenCounter, Carried(c.groups), Prospective(ops'), c.tokenMap.Keys, c.pending, gid, c.pending);
    FeedsLeft(s, gid, left);
    OpsAfter(s, gid, groups', tokenMap'.Keys, ops');
    ReadsAfter(s, gid, groups', ops');
    CursorsProgress(c.cursors, c.cursors, s.issued, c.groups, groups', c.supply, c.supply);
    LogsDrop(c.groups, s.logs, c.supply, gid);
    RoutingDrop(c.groups, c.tokenMap, c.supply, gid, s.ops[gid].tokens);
  }

  /** What a failing subscribe leaves alive was awaited by no other operation. */
  lemma FeedsLeft(s: System, gid: GroupId, left: set<Token>)
    requires Inv(s) && gid in s.ops && Subscribes(s.ops[gid]) && !s.ops[gid].accepted && left <= OpTokens(s.ops[gid])
    ensures FeedsKept(s.core.tokenCounter, Unaccepted(s.ops) - {gid}, s.live + left)
  {
    hide LogsAgree, RoutingSound, OpsFit, CursorsBounded, ReadsParked, PagesAgree, Tokens, Carried, Prospective,
         FeedsKept;
    UnacceptedApart(s);
    OpTokensDrawn(s, gid);
    assert Unaccepted(s.ops)[gid] == OpTokens(s.ops[gid]);
    FeedsTaken(s.core.tokenCounter, Unaccepted(s.ops), s.live, gid, left);
  }

  lemma OpTokensDrawn(s: System, gid: GroupId)
    requires Inv(s) && gid in s.ops
    ensures Below(OpTokens(s.ops[gid]), s.core.tokenCounter)
  {
    hide LogsAgree, RoutingSound, FeedsKept, OpsFit, CursorsBounded, ReadsParked, PagesAgree, Tokens;
    OpInFlight(s, gid);
    if s.ops[gid].Resubscribing? {
      assert Prospective(s.ops)[gid] == OpTokens(s.ops[gid]);
    } else {
      assert Carried(s.core.groups)[gid] == OpTokens(s.ops[gid]);
    }
  }

  // ----------------------------------------------------------------- events

  lemma RecomputeRuns(items: seq<Item>, before: GroupStatus)
    ensures Recompute(items, before).Terminal() ==> before.Terminal()
    ensures Recompute(items, before).Cancelled? ==> before.Cancelled?
  {
  }

  /** An event is only ever routed to a group that is not over. */
  lemma TargetRuns(s: System, token: Token)
    requires Inv(s) && Target(s.core, token).Some?
    ensures var (gid, i) := Target(s.core, token).value;
            gid in s.core.groups && i < |s.core.groups[gid].items| && !s.core.groups[gid].status.Terminal()
  {
    hide LogsAgree, TokensKept, FeedsKept, OpsFit, CursorsBounded, ReadsParked, PagesAgree;
    assert EntrySound(s.core.groups, token, s.core.tokenMap[token]);
  }

  /** Replacing one group by a later version of itself that carries the same items under the same tokens. */
  lemma TouchKeeps(s: System, gid: GroupId, g': Group, logs': Logs)
    requires Inv(s) && gid in s.core.groups
    requires var g := s.core.groups[gid];
             && |g'.items| == |g.items| && !g'.status.Terminal() && Later(g, g') && g'.waiters == {}
             && forall i | 0 <= i < |g.items| ::
                  g'.items[i].id == g.items[i].id && g'.items[i].token == g.items[i].token
    requires !s.core.groups[gid].status.Terminal()
    requires LogsAgree(s.core.groups[gid := g'], logs', s.core.supply) && LogsGrow(s.logs, logs')
    ensures Inv(s.(core := s.core.(groups := s.core.groups[gid := g']), logs := logs'))
  {
    hide LogsAgree, RoutingSound, TokensKept, FeedsKept, OpsFit, CursorsBounded, ReadsParked, PagesAgree;
    hide Carried, Prospective, Unaccepted, Tokens, Route;
    hide LogsGrow;
    var c := s.core;
    var groups' := c.groups[gid := g'];
    TokensOf(c.groups[gid].items, g'.items);
    CarriedSame(c.groups, gid, g');
    RoutingRelabel(c.groups, c.tokenMap, c.supply, gid, g');
    if gid in s.ops {
      OpInFlight(s, gid);
    }
    OpsAfter(s, gid, groups', c.tokenMap.Keys, s.ops);
    TouchReads(s, gid, g');
    CursorsProgress(c.cursors, c.cursors, s.issued, c.groups, groups', c.supply, c.supply);
    PagesStay(s.pages, s.logs, logs', s.issued, s.issued);
  }

  lemma TouchReads(s: System, gid: GroupId, g': Group)
    requires Inv(s) && gid in s.core.groups && WaitersCaughtUp(gid, g', s.parked)
    ensures ReadsParked(s.core.groups[gid := g'], s.ops, s.parked, s.issued)
  {
    hide LogsAgree, RoutingSound, TokensKept, FeedsKept, OpsFit, CursorsBounded, PagesAgree, ParkedFits;
    var groups' := s.core.groups[gid := g'];
    forall rid <- s.parked ensures ParkedFits(s.parked[rid], groups', s.ops, s.issued) {
      ParkedStays(s.parked[rid], s.core.groups, groups', s.ops, s.issued);
    }
  }

  lemma ParkedStays(r: Parked, groups: Groups, groups': Groups, ops: map<GroupId, Op>, issued: map<CursorId, Cursor>)
    requires ParkedFits(r, groups, ops, issued) && groups.Keys <= groups'.Keys
    ensures ParkedFits(r, groups', ops, issued)
  {
  }

  lemma NativeKeeps(s: System, event: Event)
    requires Inv(s)
    ensures Inv(OnNative(s, event))
  {
    hide LogsAgree, RoutingSound, TokensKept, FeedsKept, OpsFit, CursorsBounded, ReadsParked, PagesAgree;
    hide Carried, Prospective, Unaccepted, Tokens, Route;
    var c := s.core;
    var target := Target(c, event.token);
    if target.Some? {
      var (gid, i) := target.value;
      TargetRuns(s, event.token);
      GroupInv(s, gid);
      var g := c.groups[gid];
      var g' := Deliver(g, i, event);
      if event.signal.Data? {
        var key := (gid, g.generation);
        LogsDeliver(c.groups, s.logs, c.supply, gid, i, event);
        TouchKeeps(s, gid, g', s.logs[key := s.logs[key] + [LogEntry(g.items[i].id, event)]]);
      } else {
        RecomputeRuns(g'.items, g.status);
        LogsRelabel(c.groups, s.logs, c.supply, gid, g');
        TouchKeeps(s, gid, g', s.logs);
      }
    }
  }
}
