/** Replacing, cancelling, expiring, restoring and retrying keep the invariant. */
module SubscriptionReplace {
  import opened Wrappers
  import opened Cursors
  import opened SubscriptionModel
  import opened SubscriptionLog
  import opened SubscriptionSystem
  import opened SubscriptionLedger
  import opened SubscriptionFrames
  import opened SubscriptionSafety

  // ------------------------------------------------------- starting an operation

  /** Recording an operation that does not subscribe. */
  lemma BeginKeeps(s: System, gid: GroupId, op: Op)
    requires Inv(s) && gid !in s.ops && !Subscribes(op)
    requires OpFits(s.core.groups, s.core.tokenMap.Keys, gid, op)
    ensures Inv(s.(ops := s.ops[gid := op]))
  {
    hide LogsAgree, RoutingSound, TokensKept, FeedsKept, OpsFit, CursorsBounded, ReadsParked, PagesAgree;
    hide Carried, Prospective, Unaccepted, Tokens, Route;
    var c := s.core;
    GroupInv(s, gid);
    OpPut(s.ops, gid, op);
    FeedsDropped(c.tokenCounter, c.tokenCounter, Unaccepted(s.ops), s.live, gid, s.live);
    OpsAfter(s, gid, c.groups, c.tokenMap.Keys, s.ops[gid := op]);
    ReadsAfter(s, gid, c.groups, s.ops[gid := op]);
  }

  lemma CancelKeeps(s: System, principal: string, gid: GroupId, admin: bool)
    requires Inv(s) && gid !in s.ops
    ensures Inv(OnCancel(s, principal, gid, admin))
  {
    hide LogsAgree, RoutingSound, TokensKept, FeedsKept, OpsFit, CursorsBounded, ReadsParked, PagesAgree;
    hide Carried, Prospective, Unaccepted, Tokens, Route;
    var result := CancelBegin(s.core, principal, gid, admin);
    if result.Ok? && result.value.Some? {
      BeginKeeps(s, gid, Op.Cancelling(result.value.value));
    }
  }

  lemma ExpireKeeps(s: System, gid: GroupId, now: int)
    requires Inv(s) && gid !in s.ops && gid in s.core.groups && Due(s.core.groups[gid], now)
    ensures Inv(s.(ops := s.ops[gid := Expiring(Tokens(s.core.groups[gid].items))]))
  {
    hide LogsAgree, RoutingSound, TokensKept, FeedsKept, OpsFit, CursorsBounded, ReadsParked, PagesAgree;
    hide Carried, Prospective, Unaccepted, Tokens, Route;
    BeginKeeps(s, gid, Expiring(Tokens(s.core.groups[gid].items)));
  }

  // ----------------------------------------------------------- cancel and expire

  /** The tokens a group carries stop being routed, and at most they wait to be unsubscribed. */
  lemma RetireKeeps(s: System, gid: GroupId, g': Group, pending': set<Token>, cursors': CursorStore, live': set<Token>)
    requires Inv(s) && gid in s.ops && gid in s.core.groups && !s.ops[gid].Resubscribing?
    requires Relabelled(s.core.groups[gid], g') && g'.waiters <= s.core.groups[gid].waiters
    requires pending' <= s.core.pending + Tokens(s.core.groups[gid].items)
    requires cursors'.next == s.core.cursors.next && cursors'.entries.Keys <= s.core.cursors.entries.Keys
    requires forall k <- cursors'.entries :: cursors'.entries[k] == s.core.cursors.entries[k]
    requires FeedsKept(s.core.tokenCounter, Unaccepted(s.ops) - {gid}, live')
    ensures Inv(s.(core := s.core.(groups := s.core.groups[gid := g'],
                                   tokenMap := s.core.tokenMap - Tokens(s.core.groups[gid].items),
                                   pending := pending', cursors := cursors'),
                   ops := s.ops - {gid}, live := live'))
  {
    hide LogsAgree, RoutingSound, TokensKept, FeedsKept, OpsFit, CursorsBounded, ReadsParked, PagesAgree;
    hide Carried, Prospective, Unaccepted, Tokens, Route;
    var c := s.core;
    var g := c.groups[gid];
    var groups', ops', tokenMap' := c.groups[gid := g'], s.ops - {gid}, c.tokenMap - Tokens(g.items);
    assert tokenMap'.Keys == c.tokenMap.Keys - Tokens(g.items);
    GroupInv(s, gid);
    OpDrop(s.ops, gid);
    TokensOf(g.items, g'.items);
    CarriedSame(c.groups, gid, g');
    Release(c.tokenCounter, Carried(c.groups), Prospective(s.ops), c.tokenMap.Keys, c.pending, gid, c.tokenMap.Keys,
            c.pending);
    Retire(c.tokenCounter, Carried(c.groups), Prospective(ops'), c.tokenMap.Keys, c.pending, gid, pending');
    Unrouted(c.groups, c.tokenMap, c.supply, gid);
    RoutingRelabel(c.groups, tokenMap', c.supply, gid, g');
    LogsRelabel(c.groups, s.logs, c.supply, gid, g');
    OpsAfter(s, gid, groups', tokenMap'.Keys, ops');
    ReadsAfter(s, gid, groups', ops');
    CursorsProgress(c.cursors, cursors', s.issued, c.groups, groups', c.supply, c.supply);
  }

  lemma CancelDoneKeeps(s: System, gid: GroupId, ok: bool)
    requires Inv(s) && gid in s.core.groups && gid in s.ops && s.ops[gid].Cancelling?
    ensures Inv(OnCancelDone(s, gid, ok))
  {
    hide LogsAgree, RoutingSound, TokensKept, FeedsKept, OpsFit, CursorsBounded, ReadsParked, PagesAgree;
    hide Carried, Prospective, Unaccepted, Tokens, Route;
    var c := s.core;
    var g := c.groups[gid];
    OpInFlight(s, gid);
    var live' := if ok then s.live - s.ops[gid].tokens else s.live;
    var pending' := if ok then c.pending else c.pending + s.ops[gid].tokens;
    FeedsDropped(c.tokenCounter, c.tokenCounter, Unaccepted(s.ops), s.live, gid, live');
    var g' := g.(status := GroupStatus.Cancelled, items := WithStatus(g.items, ItemStatus.Cancelled), waiters := {});
    RetireKeeps(s, gid, g', pending', Invalidate(c.cursors, gid), live');
  }

  lemma ExpireDoneKeeps(s: System, gid: GroupId, ok: bool)
    requires Inv(s) && gid in s.core.groups && gid in s.ops && s.ops[gid].Expiring?
    ensures Inv(OnExpireDone(s, gid, ok))
  {
    hide LogsAgree, RoutingSound, TokensKept, FeedsKept, OpsFit, CursorsBounded, ReadsParked, PagesAgree;
    hide Carried, Prospective, Unaccepted, Tokens, Route;
    var c := s.core;
    var g := c.groups[gid];
    OpInFlight(s, gid);
    var live' := if ok then s.live - s.ops[gid].tokens else s.live;
    var pending' := if ok then c.pending else c.pending + s.ops[gid].tokens;
    FeedsDropped(c.tokenCounter, c.tokenCounter, Unaccepted(s.ops), s.live, gid, live');
    var g' := g.(status := GroupStatus.Expired, items := WithStatus(g.items, ItemStatus.Expired));
    RetireKeeps(s, gid, g', pending', Invalidate(c.cursors, gid), live');
  }

  // ----------------------------------------------------------------- resubscribe

  lemma ResubscribeKeeps(s: System, principal: string, gid: GroupId, specs: seq<Spec>, admin: bool)
    requires Inv(s) && gid !in s.ops
    ensures Inv(OnResubscribe(s, principal, gid, specs, admin))
  {
    hide LogsAgree, RoutingSound, TokensKept, FeedsKept, OpsFit, CursorsBounded, ReadsParked, PagesAgree;
    hide Carried, Prospective, Unaccepted, Tokens, Route;
    var c := s.core;
    if ResubscribeError(c, s.cfg, principal, gid, specs, admin).None? {
      var n := Accepted(specs, s.cfg);
      DrawKeeps(s, n);
      if n == |specs| {
        NewItemsFacts(specs, c.tokenCounter, c.supply);
        HoldKeeps(s, gid, NewItems(specs, c.tokenCounter, c.supply));
      }
    }
  }

  /** Drawing numbers changes nothing else. */
  lemma DrawKeeps(s: System, n: nat)
    requires Inv(s)
    ensures Inv(s.(core := s.core.(tokenCounter := s.core.tokenCounter + n, supply := s.core.supply + n)))
  {
    hide LogsAgree, RoutingSound, TokensKept, FeedsKept, OpsFit, CursorsBounded, ReadsParked, PagesAgree;
    hide Carried, Prospective, Unaccepted, Tokens, Route;
    var c := s.core;
    LogsSupply(c.groups, s.logs, c.supply, c.supply + n);
    RoutingSupply(s, c.supply + n);
    NothingCarried();
    HoldBack(c.tokenCounter, c.tokenCounter + n, Carried(c.groups), Prospective(s.ops), c.tokenMap.Keys, c.pending, 0,
             {});
    FeedsDropped(c.tokenCounter, c.tokenCounter + n, Unaccepted(s.ops), s.live, 0, s.live);
    CursorsProgress(c.cursors, c.cursors, s.issued, c.groups, c.groups, c.supply, c.supply + n);
  }

  lemma NothingCarried()
    ensures Tokens([]) == {}
  {
  }

  lemma RoutingSupply(s: System, supply: nat)
    requires Inv(s) && s.core.supply <= supply
    ensures RoutingSound(s.core.groups, s.core.tokenMap, supply)
  {
    hide LogsAgree, TokensKept, FeedsKept, OpsFit, CursorsBounded, ReadsParked, PagesAgree, EntrySound;
  }

  lemma HoldKeeps(s: System, gid: GroupId, items: seq<Item>)
    requires Inv(s) && gid !in s.ops && gid in s.core.groups && !s.core.groups[gid].status.Terminal()
    requires Distinct(items) && Fresh(Tokens(items), s.core.tokenCounter, s.core.tokenCounter + |items|)
    requires forall item <- items :: item.sequence == 0
    ensures Inv(s.(core := s.core.(tokenCounter := s.core.tokenCounter + |items|, supply := s.core.supply + |items|),
                   ops := s.ops[gid := Op.Resubscribing(items, false)]))
  {
    hide LogsAgree, RoutingSound, TokensKept, FeedsKept, OpsFit, CursorsBounded, ReadsParked, PagesAgree;
    hide Carried, Prospective, Unaccepted, Tokens, Route;
    hide Distinct;
    var c := s.core;
    var n := |items|;
    var op := Op.Resubscribing(items, false);
    var ops' := s.ops[gid := op];
    GroupInv(s, gid);
    OpPut(s.ops, gid, op);
    LogsSupply(c.groups, s.logs, c.supply, c.supply + n);
    RoutingSupply(s, c.supply + n);
    HoldBack(c.tokenCounter, c.tokenCounter + n, Carried(c.groups), Prospective(s.ops), c.tokenMap.Keys, c.pending,
             gid, Tokens(items));
    FeedsAwaited(c.tokenCounter, c.tokenCounter + n, Unaccepted(s.ops), s.live, gid, Tokens(items));
    OpsAfter(s, gid, c.groups, c.tokenMap.Keys, ops');
    ReadsAfter(s, gid, c.groups, ops');
    CursorsProgress(c.cursors, c.cursors, s.issued, c.groups, c.groups, c.supply, c.supply + n);
  }

  lemma ResubscribeDoneKeeps(s: System, gid: GroupId, outcome: Outcome)
    requires Inv(s) && gid in s.core.groups && gid in s.ops && s.ops[gid].Resubscribing? && Fits(s.ops[gid], outcome)
    ensures Inv(OnResubscribeDone(s, gid, outcome))
  {
    hide LogsAgree, RoutingSound, TokensKept, FeedsKept, OpsFit, CursorsBounded, ReadsParked, PagesAgree;
    hide Carried, Prospective, Unaccepted, Tokens, Route;
    hide ResubscribeCommit, ResubscribeAbort, Inv;
    if outcome.Succeeded? {
      CommitKeeps(s, gid);
    } else {
      AbortKeeps(s, gid, outcome);
    }
  }

  lemma AbortKeeps(s: System, gid: GroupId, outcome: Outcome)
    requires Inv(s) && gid in s.core.groups && gid in s.ops && s.ops[gid].Resubscribing? && Fits(s.ops[gid], outcome)
             && outcome.Raised?
    ensures Inv(OnResubscribeDone(s, gid, outcome))
  {
    hide LogsAgree, RoutingSound, TokensKept, FeedsKept, OpsFit, CursorsBounded, ReadsParked, PagesAgree;
    hide Carried, Prospective, Unaccepted, Tokens, Route;
    var c := s.core;
    var ops' := s.ops - {gid};
    OpInFlight(s, gid);
    GroupInv(s, gid);
    OpDrop(s.ops, gid);
    ProspectiveUnrouted(s, gid);
    Release(c.tokenCounter, Carried(c.groups), Prospective(s.ops), c.tokenMap.Keys, c.pending, gid, c.tokenMap.Keys,
            c.pending);
    FeedsLeft(s, gid, outcome.left);
    FeedsDropped(c.tokenCounter, c.tokenCounter, Unaccepted(s.ops), s.live, gid, s.live - Tokens(s.ops[gid].items));
    OpsAfter(s, gid, c.groups, c.tokenMap.Keys, ops');
    ReadsAfter(s, gid, c.groups, ops');
  }

  /** The rollback has no routing to undo. */
  lemma ProspectiveUnrouted(s: System, gid: GroupId)
    requires Inv(s) && gid in s.ops && s.ops[gid].Resubscribing?
    ensures s.core.tokenMap - Tokens(s.ops[gid].items) == s.core.tokenMap
    ensures gid in Prospective(s.ops) && Prospective(s.ops)[gid] == Tokens(s.ops[gid].items)
  {
    hide LogsAgree, RoutingSound, FeedsKept, OpsFit, CursorsBounded, ReadsParked, PagesAgree, Tokens, Carried;
    assert Prospective(s.ops)[gid] == Tokens(s.ops[gid].items);
  }

  lemma CommitKeeps(s: System, gid: GroupId)
    requires Inv(s) && gid in s.core.groups && gid in s.ops && s.ops[gid].Resubscribing?
    ensures Inv(s.(core := ResubscribeCommit(s.core, gid, s.ops[gid].items), ops := s.ops - {gid},
                   logs := s.logs[(gid, s.core.groups[gid].generation + 1) := []]))
  {
    hide LogsAgree, RoutingSound, TokensKept, FeedsKept, OpsFit, CursorsBounded, ReadsParked, PagesAgree;
    hide Carried, Prospective, Unaccepted, Tokens, Route;
    hide Distinct, LogsGrow;
    var c := s.core;
    var items := s.ops[gid].items;
    var g := c.groups[gid];
    var g' := NextGeneration(g, items, Recompute(items, GroupStatus.Starting));
    var groups', ops', logs' := c.groups[gid := g'], s.ops - {gid}, s.logs[(gid, g.generation + 1) := []];
    var left := c.tokenMap - Tokens(g.items);
    assert left.Keys == c.tokenMap.Keys - Tokens(g.items);
    var routed := Route(left, gid, items);
    RecomputeRuns(items, GroupStatus.Starting);
    OpInFlight(s, gid);
    GroupInv(s, gid);
    OpDrop(s.ops, gid);
    ProspectiveUnrouted(s, gid);
    RouteKeys(left, gid, items);
    CarriedPut(c.groups, gid, g');
    Commit(c.tokenCounter, Carried(c.groups), Prospective(s.ops), c.tokenMap.Keys, c.pending, gid);
    FeedsDropped(c.tokenCounter, c.tokenCounter, Unaccepted(s.ops), s.live, gid, s.live);
    RenewalKeeps(s, gid, g', ops', routed.Keys);
    Unrouted(c.groups, c.tokenMap, c.supply, gid);
    RoutingAdopt(c.groups, left, c.supply, gid, g');
    assert RoutingSound(groups', routed, c.supply);
    assert TokensKept(c.tokenCounter, Carried(groups'), Prospective(ops'), routed.Keys, c.pending + Tokens(g.items));
  }

  /** What a new generation of a group means for its log, its operations, its readers and its cursors. */
  lemma RenewalKeeps(s: System, gid: GroupId, g': Group, ops': map<GroupId, Op>, routed': set<Token>)
    requires Inv(s) && gid in s.core.groups
    requires g' == NextGeneration(s.core.groups[gid], g'.items, g'.status)
    requires Distinct(g'.items) && forall item <- g'.items :: item.sequence == 0
    requires Elsewhere(s.ops, ops', gid)
    requires s.core.tokenMap.Keys - Tokens(s.core.groups[gid].items) <= routed'
    requires gid in ops' ==> !ops'[gid].Creating? && OpFits(s.core.groups[gid := g'], routed', gid, ops'[gid])
    ensures var groups' := s.core.groups[gid := g'];
            var logs' := s.logs[(gid, g'.generation) := []];
            && LogsAgree(groups', logs', s.core.supply)
            && OpsFit(groups', routed', ops')
            && ReadsParked(groups', ops', s.parked, s.issued)
            && CursorsBounded(Invalidate(s.core.cursors, gid), s.issued, groups', s.core.supply)
            && PagesAgree(s.pages, logs', s.issued)
  {
    hide LogsAgree, RoutingSound, TokensKept, FeedsKept, OpsFit, CursorsBounded, ReadsParked, PagesAgree;
    hide Carried, Prospective, Unaccepted, Tokens, Route;
    hide Distinct, LogsGrow;
    var c := s.core;
    var groups' := c.groups[gid := g'];
    var logs' := s.logs[(gid, g'.generation) := []];
    GroupInv(s, gid);
    LogsFresh(c.groups, s.logs, c.supply, gid, g');
    OpsAfter(s, gid, groups', routed', ops');
    ReadsAfter(s, gid, groups', ops');
    CursorsProgress(c.cursors, Invalidate(c.cursors, gid), s.issued, c.groups, groups', c.supply, c.supply);
    RenewalLogsGrow(s, gid);
    PagesStay(s.pages, s.logs, logs', s.issued, s.issued);
  }

  lemma RenewalLogsGrow(s: System, gid: GroupId)
    requires Inv(s) && gid in s.core.groups
    ensures LogsGrow(s.logs, s.logs[(gid, s.core.groups[gid].generation + 1) := []])
  {
    hide RoutingSound, TokensKept, FeedsKept, OpsFit, CursorsBounded, ReadsParked, PagesAgree, GroupAgrees;
  }

  // --------------------------------------------------------------------- restore

  lemma RenewedFacts(items: seq<Item>, counter: nat)
    ensures var r := Renewed(items, counter);
            && Fresh(Tokens(r), counter, counter + |items|)
            && (forall item <- r :: item.sequence == 0)
            && (Distinct(items) ==> Distinct(r))
  {
  }

  lemma RenewedItems(s: System, gid: GroupId)
    requires Inv(s) && gid in s.core.groups
    ensures var items := Renewed(s.core.groups[gid].items, s.core.tokenCounter);
            && Distinct(items) && Fresh(Tokens(items), s.core.tokenCounter, s.core.tokenCounter + |items|)
            && (forall item <- items :: item.sequence == 0)
  {
    GroupDistinct(s, gid);
    RenewedFacts(s.core.groups[gid].items, s.core.tokenCounter);
  }

  lemma GroupDistinct(s: System, gid: GroupId)
    requires Inv(s) && gid in s.core.groups
    ensures Distinct(s.core.groups[gid].items)
  {
    hide RoutingSound, TokensKept, FeedsKept, OpsFit, CursorsBounded, ReadsParked, PagesAgree, Distinct, Window, Views;
    assert GroupAgrees(gid, s.core.groups[gid], s.logs);
  }

  lemma RestoreKeeps(s: System, gid: GroupId)
    requires Inv(s) && gid !in s.ops && gid in s.core.groups && s.core.groups[gid].status.Running()
    ensures Inv(OnRestore(s, gid))
  {
    hide Inv, Route, Tokens, Invalidate, Renewed, Distinct;
    RenewedItems(s, gid);
    RestoredKeeps(s, gid, Renewed(s.core.groups[gid].items, s.core.tokenCounter));
  }

  lemma RestoringFits(groups: Groups, gid: GroupId, g': Group, routed: set<Token>)
    requires !g'.status.Terminal() && Tokens(g'.items) <= routed
    ensures OpFits(groups[gid := g'], routed, gid, Restoring(Tokens(g'.items), false))
  {
  }

  /** Newly drawn tokens replace the ones a group carried: the routing. */
  lemma AdoptRouting(s: System, gid: GroupId, items: seq<Item>)
    requires Inv(s) && gid in s.core.groups
    ensures var c := s.core;
            var g := c.groups[gid];
            var routed := Route(c.tokenMap - Tokens(g.items), gid, items);
            && routed.Keys == c.tokenMap.Keys - Tokens(g.items) + Tokens(items)
            && RoutingSound(c.groups[gid := NextGeneration(g, items, GroupStatus.Starting)], routed, c.supply)
  {
    hide LogsAgree, RoutingSound, TokensKept, FeedsKept, OpsFit, CursorsBounded, ReadsParked, PagesAgree, Tokens, Route;
    var c := s.core;
    var g := c.groups[gid];
    var left := c.tokenMap - Tokens(g.items);
    assert left.Keys == c.tokenMap.Keys - Tokens(g.items);
    GroupInv(s, gid);
    RouteKeys(left, gid, items);
    Unrouted(c.groups, c.tokenMap, c.supply, gid);
    RoutingAdopt(c.groups, left, c.supply, gid, NextGeneration(g, items, GroupStatus.Starting));
  }

  /** The same for the ledgers. */
  lemma AdoptLedgers(s: System, gid: GroupId, g': Group, op: Op)
    requires Inv(s) && gid !in s.ops && gid in s.core.groups && op == Restoring(Tokens(g'.items), false)
    requires Fresh(Tokens(g'.items), s.core.tokenCounter, s.core.tokenCounter + |g'.items|)
    ensures var c := s.core;
            var counter', ops' := c.tokenCounter + |g'.items|, s.ops[gid := op];
            && TokensKept(counter', Carried(c.groups[gid := g']), Prospective(ops'),
                          c.tokenMap.Keys - Tokens(c.groups[gid].items) + Tokens(g'.items), c.pending)
            && FeedsKept(counter', Unaccepted(ops'), s.live)
  {
    hide LogsAgree, RoutingSound, TokensKept, FeedsKept, OpsFit, CursorsBounded, ReadsParked, PagesAgree;
    hide Carried, Prospective, Unaccepted, Tokens, Fresh;
    var c := s.core;
    var counter' := c.tokenCounter + |g'.items|;
    CarriedPut(c.groups, gid, g');
    OpPut(s.ops, gid, op);
    Adopt(c.tokenCounter, counter', Carried(c.groups), Prospective(s.ops), c.tokenMap.Keys, c.pending,
          gid, Tokens(g'.items), Tokens(c.groups[gid].items));
    FeedsAwaited(c.tokenCounter, counter', Unaccepted(s.ops), s.live, gid, Tokens(g'.items));
  }

  /** And for the log, the operation, the readers and the cursors. */
  lemma RestoredViews(s: System, gid: GroupId, items: seq<Item>, routed: set<Token>)
    requires Inv(s) && gid in s.core.groups
    requires Distinct(items) && forall item <- items :: item.sequence == 0
    requires s.core.tokenMap.Keys - Tokens(s.core.groups[gid].items) + Tokens(items) <= routed
    ensures var g' := NextGeneration(s.core.groups[gid], items, GroupStatus.Starting);
            var groups', ops' := s.core.groups[gid := g'], s.ops[gid := Restoring(Tokens(items), false)];
            var logs' := s.logs[(gid, g'.generation) := []];
            && LogsAgree(groups', logs', s.core.supply)
            && OpsFit(groups', routed, ops')
            && ReadsParked(groups', ops', s.parked, s.issued)
            && CursorsBounded(Invalidate(s.core.cursors, gid), s.issued, groups', s.core.supply)
            && PagesAgree(s.pages, logs', s.issued)
  {
    hide Inv, Distinct, OpFits, Elsewhere, Invalidate, Tokens, LogsAgree, OpsFit, ReadsParked, CursorsBounded,
         PagesAgree;
    var g' := NextGeneration(s.core.groups[gid], items, GroupStatus.Starting);
    var op := Restoring(Tokens(items), false);
    ElsewherePut(s.ops, gid, op);
    RestoringFits(s.core.groups, gid, g', routed);
    RenewalKeeps(s, gid, g', s.ops[gid := op], routed);
  }

  lemma RestoredKeeps(s: System, gid: GroupId, items: seq<Item>)
    requires Inv(s) && gid !in s.ops && gid in s.core.groups
    requires Distinct(items) && Fresh(Tokens(items), s.core.tokenCounter, s.core.tokenCounter + |items|)
    requires forall item <- items :: item.sequence == 0
    ensures var c := s.core;
            var g' := NextGeneration(c.groups[gid], items, GroupStatus.Starting);
            Inv(s.(core := c.(groups := c.groups[gid := g'],
                              tokenMap := Route(c.tokenMap - Tokens(c.groups[gid].items), gid, items),
                              tokenCounter := c.tokenCounter + |items|,
                              cursors := Invalidate(c.cursors, gid)),
                   ops := s.ops[gid := Restoring(Tokens(items), false)],
                   logs := s.logs[(gid, g'.generation) := []]))
  {
    hide Inv, LogsAgree, RoutingSound, TokensKept, FeedsKept, OpsFit, CursorsBounded, ReadsParked, PagesAgree;
    hide Carried, Prospective, Unaccepted, Tokens, Route, Distinct, Invalidate, Fresh;
    var c := s.core;
    var g' := NextGeneration(c.groups[gid], items, GroupStatus.Starting);
    var op := Restoring(Tokens(items), false);
    AdoptRouting(s, gid, items);
    AdoptLedgers(s, gid, g', op);
    var routed := Route(c.tokenMap - Tokens(c.groups[gid].items), gid, items);
    RestoredViews(s, gid, items, routed.Keys);
    Conjoins(s, s.(core := c.(groups := c.groups[gid := g'], tokenMap := routed,
                              tokenCounter := c.tokenCounter + |items|, cursors := Invalidate(c.cursors, gid)),
                                ops := s.ops[gid := op], logs := s.logs[(gid, g'.generation) := []]));
  }

  lemma RestoreDoneKeeps(s: System, gid: GroupId, outcome: Outcome)
    requires Inv(s) && gid in s.core.groups && gid in s.ops && s.ops[gid].Restoring? && Fits(s.ops[gid], outcome)
    ensures Inv(OnRestoreDone(s, gid, outcome))
  {
    hide LogsAgree, RoutingSound, TokensKept, FeedsKept, OpsFit, CursorsBounded, ReadsParked, PagesAgree;
    hide Carried, Prospective, Unaccepted, Tokens, Route;
    var c := s.core;
    var ops' := s.ops - {gid};
    OpInFlight(s, gid);
    GroupInv(s, gid);
    if outcome.Succeeded? {
      OpDrop(s.ops, gid);
      Release(c.tokenCounter, Carried(c.groups), Prospective(s.ops), c.tokenMap.Keys, c.pending, gid, c.tokenMap.Keys,
              c.pending);
      FeedsDropped(c.tokenCounter, c.tokenCounter, Unaccepted(s.ops), s.live, gid, s.live);
      OpsAfter(s, gid, c.groups, c.tokenMap.Keys, ops');
      ReadsAfter(s, gid, c.groups, ops');
    } else {
      FeedsLeft(s, gid, outcome.left);
      RetireKeeps(s, gid, c.groups[gid].(status := GroupStatus.Failed), c.pending, c.cursors, s.live + outcome.left);
    }
  }

  // --------------------------------------------------------- the environment

  lemma RetryKeeps(s: System, token: Token, ok: bool)
    requires Inv(s)
    ensures Inv(s.(core := RetryFinish(s.core, token, ok), live := if ok then s.live - {token} else s.live))
  {
    hide LogsAgree, RoutingSound, TokensKept, FeedsKept, OpsFit, CursorsBounded, ReadsParked, PagesAgree;
    hide Carried, Prospective, Unaccepted, Tokens, Route;
    var c := s.core;
    Release(c.tokenCounter, Carried(c.groups), Prospective(s.ops), c.tokenMap.Keys, c.pending, 0, c.tokenMap.Keys,
            c.pending - {token});
    FeedsDropped(c.tokenCounter, c.tokenCounter, Unaccepted(s.ops), s.live, 0, s.live - {token});
  }

  lemma AcceptKeeps(s: System, gid: GroupId)
    requires Inv(s) && gid in s.ops && Subscribes(s.ops[gid]) && !s.ops[gid].accepted
    ensures Inv(s.(ops := s.ops[gid := s.ops[gid].(accepted := true)], live := s.live + OpTokens(s.ops[gid])))
  {
    hide LogsAgree, RoutingSound, TokensKept, FeedsKept, OpsFit, CursorsBounded, ReadsParked, PagesAgree;
    hide Carried, Prospective, Unaccepted, Tokens, Route;
    var c := s.core;
    var op' := s.ops[gid].(accepted := true);
    OpInFlight(s, gid);
    GroupInv(s, gid);
    OpAccept(s.ops, gid);
    FeedsLeft(s, gid, OpTokens(s.ops[gid]));
    OpsAfter(s, gid, c.groups, c.tokenMap.Keys, s.ops[gid := op']);
    AcceptReads(s, gid);
  }

  lemma AcceptReads(s: System, gid: GroupId)
    requires Inv(s) && gid in s.ops && Subscribes(s.ops[gid])
    ensures ReadsParked(s.core.groups, s.ops[gid := s.ops[gid].(accepted := true)], s.parked, s.issued)
  {
    hide LogsAgree, RoutingSound, TokensKept, FeedsKept, OpsFit, CursorsBounded, PagesAgree, Located;
    var ops' := s.ops[gid := s.ops[gid].(accepted := true)];
    forall rid <- s.parked ensures ParkedFits(s.parked[rid], s.core.groups, ops', s.issued) {
      assert ParkedFits(s.parked[rid], s.core.groups, s.ops, s.issued);
    }
  }

  lemma SessionLostKeeps(s: System)
    requires Inv(s)
    ensures Inv(s.(live := {}))
  {
    hide LogsAgree, RoutingSound, TokensKept, FeedsKept, OpsFit, CursorsBounded, ReadsParked, PagesAgree;
    hide Carried, Prospective, Unaccepted, Tokens, Route;
    FeedsDropped(s.core.tokenCounter, s.core.tokenCounter, Unaccepted(s.ops), s.live, 0, {});
  }
}
