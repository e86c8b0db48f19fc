/** What no step can undo: histories grow, generations advance, retired tokens and handles stay retired. */
module SubscriptionRuns {
  import opened Wrappers
  import opened Cursors
  import opened SubscriptionModel
  import opened SubscriptionLog
  import opened SubscriptionSystem
  import opened SubscriptionLedger
  import opened SubscriptionFrames
  import opened SubscriptionSafety
  import opened SubscriptionReads
  import opened SubscriptionReplace

  lemma NextKeeps(s: System, a: Action)
    requires Inv(s)
    ensures Inv(Next(s, a))
  {
    hide Inv, OnCreate, OnCreateDone, OnNative, OnRead, OnReadDone, OnResubscribe, OnResubscribeDone, OnCancel,
         OnCancelDone, OnExpireDone, OnRestore, OnRestoreDone, Tokens, RetryFinish;
    if Enabled(s, a) {
      match a
      case Create(principal, specs, retention, now) => CreateKeeps(s, principal, specs, retention, now);
      case CreateDone(gid, outcome) => CreateDoneKeeps(s, gid, outcome);
      case Native(event) => NativeKeeps(s, event);
      case Read(request, rid, now) => ReadKeeps(s, request, rid, now);
      case ReadDone(rid, now) => ReadDoneKeeps(s, rid, now);
      case Resubscribe(principal, gid, specs, admin) => ResubscribeKeeps(s, principal, gid, specs, admin);
      case ResubscribeDone(gid, outcome) => ResubscribeDoneKeeps(s, gid, outcome);
      case Cancel(principal, gid, admin) => CancelKeeps(s, principal, gid, admin);
      case CancelDone(gid, ok) => CancelDoneKeeps(s, gid, ok);
      case Expire(gid, now) => ExpireKeeps(s, gid, now);
      case ExpireDone(gid, ok) => ExpireDoneKeeps(s, gid, ok);
      case Restore(gid) => RestoreKeeps(s, gid);
      case RestoreDone(gid, outcome) => RestoreDoneKeeps(s, gid, outcome);
      case Retry(token, ok) => RetryKeeps(s, token, ok);
      case Accept(gid) => AcceptKeeps(s, gid);
      case SessionLost => SessionLostKeeps(s);
    }
  }

  /** Every state of every run satisfies the invariant. */
  lemma {:induction false} RunKeeps(s: System, actions: seq<Action>)
    requires Inv(s)
    ensures Inv(Run(s, actions))
  {
    hide Inv, Next;
    if actions != [] {
      RunKeeps(s, actions[..|actions| - 1]);
      NextKeeps(Run(s, actions[..|actions| - 1]), actions[|actions| - 1]);
    }
  }

  lemma Reachable(cfg: Config, actions: seq<Action>)
    requires cfg.maxBuffered >= 1
    ensures Inv(Run(Start(cfg), actions))
  {
    hide Inv, Run, Start;
    StartKeeps(cfg);
    RunKeeps(Start(cfg), actions);
  }

  // ---------------------------------------------------------------- one step

  ghost predicate Grows(issued: map<CursorId, Cursor>, issued': map<CursorId, Cursor>) {
    issued.Keys <= issued'.Keys && forall k <- issued :: issued'[k] == issued[k]
  }

  ghost predicate HistoryGrows(s: System, s': System) {
    && s'.cfg == s.cfg
    && Grows(s.issued, s'.issued)
    && LogsGrow(s.logs, s'.logs)
    && s.pages <= s'.pages
    && s.core.tokenCounter <= s'.core.tokenCounter
    && s.core.supply <= s'.core.supply
    && s.core.cursors.next <= s'.core.cursors.next
  }

  /**
   A cancelled group stays cancelled, an expired one can only become cancelled, and a group that is over keeps its
   events.
   */
  ghost predicate Advances(g: Group, g': Group) {
    && Later(g, g')
    && g'.maxEvents == g.maxEvents && g'.principal == g.principal
    && (g.status.Cancelled? ==> g'.status.Cancelled?)
    && (g.status.Terminal() ==>
          g'.status.Terminal() && g' == g.(status := g'.status, items := g'.items, waiters := g'.waiters))
  }

  ghost predicate GroupsAdvance(groups: Groups, groups': Groups, supply: nat) {
    forall gid <- groups' :: if gid in groups then Advances(groups[gid], groups'[gid]) else gid >= supply
  }

  /** A token that was drawn, is no longer routed and is not held back for a replacement. */
  ghost predicate Retired(counter: nat, routed: set<Token>, prospective: Ledger, t: Token) {
    t <= counter && t !in routed && forall gid <- prospective :: t !in prospective[gid]
  }

  ghost predicate TokensStayRetired(counter: nat, routed: set<Token>, prospective: Ledger,
                                    counter': nat, routed': set<Token>, prospective': Ledger)
  {
    forall t: Token | Retired(counter, routed, prospective, t) :: Retired(counter', routed', prospective', t)
  }

  ghost predicate HandlesStayGone(store: CursorStore, store': CursorStore) {
    forall k: CursorId | k < store.next && k !in store.entries :: k !in store'.entries
  }

  ghost predicate Onward(s: System, s': System) {
    && HistoryGrows(s, s')
    && GroupsAdvance(s.core.groups, s'.core.groups, s.core.supply)
    && TokensStayRetired(s.core.tokenCounter, s.core.tokenMap.Keys, Prospective(s.ops),
                         s'.core.tokenCounter, s'.core.tokenMap.Keys, Prospective(s'.ops))
    && HandlesStayGone(s.core.cursors, s'.core.cursors)
  }

  lemma AdvancePut(groups: Groups, gid: GroupId, g': Group, supply: nat)
    requires gid in groups && Advances(groups[gid], g')
    ensures GroupsAdvance(groups, groups[gid := g'], supply)
    ensures GroupsAdvance(groups, groups - {gid}, supply)
    ensures GroupsAdvance(groups, groups, supply)
  {
  }

  lemma AdvanceAdd(groups: Groups, g': Group, supply: nat)
    requires supply !in groups
    ensures GroupsAdvance(groups, groups[supply := g'], supply)
    ensures GroupsAdvance(groups, groups, supply)
  {
  }

  lemma AdvanceNone(groups: Groups, supply: nat)
    ensures GroupsAdvance(groups, groups, supply)
  {
  }

  lemma RetiredShrink(counter: nat, routed: set<Token>, prospective: Ledger, routed': set<Token>, gid: GroupId)
    requires routed' <= routed
    ensures TokensStayRetired(counter, routed, prospective, counter, routed', prospective)
    ensures TokensStayRetired(counter, routed, prospective, counter, routed', prospective - {gid})
  {
  }

  lemma RetiredFresh(counter: nat, routed: set<Token>, prospective: Ledger, counter': nat, routed': set<Token>,
                     new': set<Token>, gid: GroupId)
    requires Fresh(new', counter, counter') && routed' <= routed + new'
    ensures TokensStayRetired(counter, routed, prospective, counter', routed', prospective)
    ensures TokensStayRetired(counter, routed, prospective, counter', routed, prospective[gid := new'])
    ensures TokensStayRetired(counter, routed, prospective, counter', routed, prospective)
  {
  }

  lemma RetiredCommit(counter: nat, routed: set<Token>, prospective: Ledger, gone: set<Token>, gid: GroupId)
    requires gid in prospective
    ensures TokensStayRetired(counter, routed, prospective, counter, routed - gone + prospective[gid],
                              prospective - {gid})
  {
  }

  lemma HandlesShrink(store: CursorStore, store': CursorStore)
    requires store'.entries.Keys <= store.entries.Keys
    ensures HandlesStayGone(store, store')
  {
  }

  lemma HandlesInsert(store: CursorStore, before: CursorStore, cursor: Cursor, now: int)
    requires before.entries.Keys <= store.entries.Keys && cursor.id == store.next
    ensures HandlesStayGone(store, Insert(before, cursor, now))
  {
    EvictionKeepsTheYoungest(before.entries[cursor.id := cursor], now);
  }

  lemma SameLogs(logs: Logs)
    ensures LogsGrow(logs, logs)
  {
  }

  lemma Assemble(s: System, s': System)
    requires s'.cfg == s.cfg && s'.issued == s.issued && s'.pages == s.pages && LogsGrow(s.logs, s'.logs)
    requires s.core.tokenCounter <= s'.core.tokenCounter && s.core.supply <= s'.core.supply
    requires s'.core.cursors.next == s.core.cursors.next
    requires GroupsAdvance(s.core.groups, s'.core.groups, s.core.supply)
    requires TokensStayRetired(s.core.tokenCounter, s.core.tokenMap.Keys, Prospective(s.ops),
                               s'.core.tokenCounter, s'.core.tokenMap.Keys, Prospective(s'.ops))
    requires HandlesStayGone(s.core.cursors, s'.core.cursors)
    ensures Onward(s, s')
  {
  }

  /** Newly drawn tokens, routed or held back, leave retired ones retired. */
  lemma DrawnTokens(s: System, items: seq<Item>, gid: GroupId, gone: set<Token>)
    requires Fresh(Tokens(items), s.core.tokenCounter, s.core.tokenCounter + |items|)
    ensures var counter, counter' := s.core.tokenCounter, s.core.tokenCounter + |items|;
            var routed, prospective := s.core.tokenMap.Keys, Prospective(s.ops);
            && TokensStayRetired(counter, routed, prospective, counter', routed, prospective)
            && TokensStayRetired(counter, routed, prospective, counter', Route(s.core.tokenMap - gone, gid, items).Keys,
                                 prospective)
            && TokensStayRetired(counter, routed, prospective, counter', routed,
                                 Prospective(s.ops[gid := Op.Resubscribing(items, false)]))
  {
    hide Prospective, Tokens, Route, TokensStayRetired;
    RouteKeys(s.core.tokenMap - gone, gid, items);
    OpPut(s.ops, gid, Op.Resubscribing(items, false));
    RetiredFresh(s.core.tokenCounter, s.core.tokenMap.Keys, Prospective(s.ops), s.core.tokenCounter + |items|,
                 Route(s.core.tokenMap - gone, gid, items).Keys, Tokens(items), gid);
  }

  /** Counters advance, and tokens are at most routed or held back. */
  lemma DrawnOnward(s: System, tokenMap': map<Token, (GroupId, ItemId)>, ops': map<GroupId, Op>, counter': nat,
                    supply': nat)
    requires s.core.tokenCounter <= counter' && s.core.supply <= supply'
    requires TokensStayRetired(s.core.tokenCounter, s.core.tokenMap.Keys, Prospective(s.ops),
                               counter', tokenMap'.Keys, Prospective(ops'))
    ensures Onward(s, s.(core := s.core.(tokenMap := tokenMap', tokenCounter := counter', supply := supply'),
                         ops := ops'))
  {
    hide LogsAgree, RoutingSound, TokensKept, FeedsKept, OpsFit, CursorsBounded, ReadsParked, PagesAgree;
    hide Carried, Prospective, Unaccepted, Tokens, Route, LogsGrow, GroupsAdvance, TokensStayRetired, HandlesStayGone;
    HandlesShrink(s.core.cursors, s.core.cursors);
    AdvanceNone(s.core.groups, s.core.supply);
    SameLogs(s.logs);
  }

  /** New tokens are routed for a group that starts its log: a new group, or a new generation. */
  lemma RoutedOnward(s: System, gid: GroupId, g': Group, op: Op, tokenMap': map<Token, (GroupId, ItemId)>,
                     counter': nat, supply': nat, cursors': CursorStore)
    requires gid !in s.ops && !op.Resubscribing? && s.core.tokenCounter <= counter' && s.core.supply <= supply'
    requires TokensStayRetired(s.core.tokenCounter, s.core.tokenMap.Keys, Prospective(s.ops),
                               counter', tokenMap'.Keys, Prospective(s.ops))
    requires GroupsAdvance(s.core.groups, s.core.groups[gid := g'], s.core.supply)
    requires LogsGrow(s.logs, s.logs[(gid, g'.generation) := []])
    requires cursors'.next == s.core.cursors.next && cursors'.entries.Keys <= s.core.cursors.entries.Keys
    ensures Onward(s, s.(core := s.core.(groups := s.core.groups[gid := g'], tokenMap := tokenMap',
                                         tokenCounter := counter', supply := supply', cursors := cursors'),
                         ops := s.ops[gid := op], logs := s.logs[(gid, g'.generation) := []]))
  {
    hide LogsAgree, RoutingSound, TokensKept, FeedsKept, OpsFit, CursorsBounded, ReadsParked, PagesAgree;
    hide Carried, Prospective, Unaccepted, Tokens, Route, LogsGrow, GroupsAdvance, TokensStayRetired, HandlesStayGone;
    OpPut(s.ops, gid, op);
    HandlesShrink(s.core.cursors, cursors');
  }

  lemma CreatedTokens(s: System, specs: seq<Spec>, supply: nat, gid: GroupId)
    ensures var items := NewItems(specs, s.core.tokenCounter, supply);
            var counter, counter' := s.core.tokenCounter, s.core.tokenCounter + |specs|;
            var routed, prospective := s.core.tokenMap.Keys, Prospective(s.ops);
            && TokensStayRetired(counter, routed, prospective, counter', routed, prospective)
            && TokensStayRetired(counter, routed, prospective, counter', Route(s.core.tokenMap, gid, items).Keys,
                                 prospective)
            && TokensStayRetired(counter, routed, prospective, counter', routed,
                                 Prospective(s.ops[gid := Op.Resubscribing(items, false)]))
  {
    hide Prospective, Tokens, Route, TokensStayRetired;
    NewItemsFacts(specs, s.core.tokenCounter, supply);
    DrawnTokens(s, NewItems(specs, s.core.tokenCounter, supply), gid, {});
    assert s.core.tokenMap - {} == s.core.tokenMap;
  }

  lemma RenewedTokens(s: System, gid: GroupId)
    requires Inv(s) && gid in s.core.groups
    ensures var items := s.core.groups[gid].items;
            var left := s.core.tokenMap - Tokens(items);
            TokensStayRetired(s.core.tokenCounter, s.core.tokenMap.Keys, Prospective(s.ops),
                              s.core.tokenCounter + |items|, Route(left, gid, Renewed(items, s.core.tokenCounter)).Keys,
                              Prospective(s.ops))
  {
    hide Prospective, Tokens, Route, TokensStayRetired, Inv, Distinct;
    RenewedItems(s, gid);
    DrawnTokens(s, Renewed(s.core.groups[gid].items, s.core.tokenCounter), gid, Tokens(s.core.groups[gid].items));
  }

  lemma AdmittedOnward(s: System, specs: seq<Spec>, g: Group)
    requires Inv(s) && g.items == NewItems(specs, s.core.tokenCounter, s.core.supply + 1) && g.generation == 1
    ensures var c := s.core;
            Onward(s, s.(core := c.(groups := c.groups[c.supply := g], tokenMap := Route(c.tokenMap, c.supply, g.items),
                                    tokenCounter := c.tokenCounter + |specs|, supply := c.supply + 1 + |specs|),
                         ops := s.ops[c.supply := Creating(Tokens(g.items), false)],
                         logs := s.logs[(c.supply, 1) := []]))
  {
    hide LogsAgree, RoutingSound, TokensKept, FeedsKept, OpsFit, CursorsBounded, ReadsParked, PagesAgree;
    hide Carried, Prospective, Unaccepted, Tokens, Route, LogsGrow, GroupsAdvance, TokensStayRetired, HandlesStayGone;
    hide Onward, NewItems;
    var c := s.core;
    CreatedTokens(s, specs, c.supply + 1, c.supply);
    NextIdUnused(s);
    CreateLogsGrow(s);
    AdvanceAdd(c.groups, g, c.supply);
    RoutedOnward(s, c.supply, g, Creating(Tokens(g.items), false), Route(c.tokenMap, c.supply, g.items),
                 c.tokenCounter + |specs|, c.supply + 1 + |specs|, c.cursors);
  }

  lemma CreateOnward(s: System, principal: string, specs: seq<Spec>, retention: Option<RetentionRequest>, now: int)
    requires Inv(s)
    ensures Onward(s, OnCreate(s, principal, specs, retention, now))
  {
    hide LogsAgree, RoutingSound, TokensKept, FeedsKept, OpsFit, CursorsBounded, ReadsParked, PagesAgree;
    hide Carried, Prospective, Unaccepted, Tokens, Route, LogsGrow, GroupsAdvance, TokensStayRetired, HandlesStayGone;
    hide Onward, Inv;
    var c := s.core;
    if CreateError(c, s.cfg, principal, specs, retention).Some? {
      ResolveOnward(s, 0, "", 0);
    } else {
      var n := Accepted(specs, s.cfg);
      var items := NewItems(specs[..n], c.tokenCounter, c.supply + 1);
      if n < |specs| {
        CreatedTokens(s, specs[..n], c.supply + 1, c.supply);
        DrawnOnward(s, Route(c.tokenMap, c.supply, items), s.ops, c.tokenCounter + n, c.supply + 1 + n);
      } else {
        assert specs[..n] == specs;
        AdmittedOnward(s, specs, NewGroup(s.cfg, principal, items, retention, RequestedRetention(retention).value,
                                          now));
      }
    }
  }

  lemma DeliverAdvances(g: Group, i: nat, event: Event)
    requires i < |g.items| && !g.status.Terminal()
    ensures Advances(g, Deliver(g, i, event))
  {
  }

  lemma NativeOnward(s: System, event: Event)
    requires Inv(s)
    ensures Onward(s, OnNative(s, event))
  {
    hide LogsAgree, RoutingSound, TokensKept, FeedsKept, OpsFit, CursorsBounded, ReadsParked, PagesAgree;
    hide Carried, Prospective, Unaccepted, Tokens, Route, LogsGrow, GroupsAdvance, TokensStayRetired, HandlesStayGone;
    hide Onward, Advances, Deliver;
    var c := s.core;
    var target := Target(c, event.token);
    HandlesShrink(c.cursors, c.cursors);
    RetiredShrink(c.tokenCounter, c.tokenMap.Keys, Prospective(s.ops), c.tokenMap.Keys, 0);
    AdvanceNone(c.groups, c.supply);
    SameLogs(s.logs);
    if target.Some? {
      var (gid, i) := target.value;
      TargetRuns(s, event.token);
      GroupInv(s, gid);
      DeliverAdvances(c.groups[gid], i, event);
      AdvancePut(c.groups, gid, Deliver(c.groups[gid], i, event), c.supply);
      LogAppended(s.logs, (gid, c.groups[gid].generation), LogEntry(c.groups[gid].items[i].id, event));
    }
    Assemble(s, OnNative(s, event));
  }

  lemma LogAppended(logs: Logs, key: (GroupId, nat), entry: LogEntry)
    requires key in logs
    ensures LogsGrow(logs, logs[key := logs[key] + [entry]])
  {
  }

  lemma ServingOnward(s: System, gid: GroupId, position: Position, limit: int, principal: string, now: int)
    requires Inv(s) && gid in s.core.groups && |s.core.groups[gid].buffer| <= s.core.groups[gid].total
    requires Located(position, gid, s.issued)
    ensures Onward(s, Serving(s, gid, position, limit, principal, now))
  {
    hide LogsAgree, RoutingSound, TokensKept, FeedsKept, OpsFit, CursorsBounded, ReadsParked, PagesAgree;
    hide Carried, Prospective, Unaccepted, Tokens, Route, LogsGrow, GroupsAdvance, TokensStayRetired, HandlesStayGone;
    hide PageFrom, NextOffset, Located, Evict;
    var c := s.core;
    var next := NextOffset(c.groups[gid], position.offset, limit);
    var (cursor, _) := Successor(c, s.cfg, gid, position, next, principal, now);
    SuccessorBounded(s, gid, position, limit, principal, now);
    RetiredShrink(c.tokenCounter, c.tokenMap.Keys, Prospective(s.ops), c.tokenMap.Keys, 0);
    AdvanceNone(c.groups, c.supply);
    SameLogs(s.logs);
    var before := if position.cursor.Some? then Forget(c.cursors, position.cursor.value.id) else c.cursors;
    HandlesInsert(c.cursors, before, cursor, now);
  }

  lemma ReadFromOnward(s: System, request: ReadRequest, rid: ReadId, position: Position, now: int)
    requires Inv(s) && request.subscription in s.core.groups && Located(position, request.subscription, s.issued)
    requires var g := s.core.groups[request.subscription]; |g.buffer| <= g.total
    ensures Onward(s, ReadFrom(s, request, rid, position, now))
  {
    hide LogsAgree, RoutingSound, TokensKept, FeedsKept, OpsFit, CursorsBounded, ReadsParked, PagesAgree;
    hide Carried, Prospective, Unaccepted, Tokens, Route, LogsGrow, GroupsAdvance, TokensStayRetired, HandlesStayGone;
    hide Serving, Located;
    var c := s.core;
    var gid := request.subscription;
    HandlesShrink(c.cursors, c.cursors);
    RetiredShrink(c.tokenCounter, c.tokenMap.Keys, Prospective(s.ops), c.tokenMap.Keys, 0);
    SameLogs(s.logs);
    AdvancePut(c.groups, gid, c.groups[gid].(waiters := c.groups[gid].waiters + {rid}), c.supply);
    if !(request.wait && (c.longPolls >= s.cfg.maxLongPolls || c.groups[gid].total <= position.offset)) {
      ServingOnward(s, gid, position, request.limit, request.principal, now);
    }
  }

  lemma ResolveOnward(s: System, id: CursorId, principal: string, now: int)
    ensures Onward(s, s.(core := s.core.(cursors := AfterResolve(s.core.cursors, id, principal, now))))
    ensures Onward(s, s)
  {
    hide Tokens;
  }

  lemma ReadOnward(s: System, request: ReadRequest, rid: ReadId, now: int)
    requires Inv(s) && rid !in s.parked && !(request.subscription in s.ops && s.ops[request.subscription].Creating?)
    requires request.subscription in s.core.groups ==>
               |s.core.groups[request.subscription].buffer| <= s.core.groups[request.subscription].total
    ensures Onward(s, OnRead(s, request, rid, now))
  {
    hide LogsAgree, RoutingSound, TokensKept, FeedsKept, OpsFit, CursorsBounded, ReadsParked, PagesAgree;
    hide Carried, Prospective, Unaccepted, Tokens, Route, LogsGrow, GroupsAdvance, TokensStayRetired, HandlesStayGone;
    hide Onward, Located, Presentable, Serve, Successor;
    var c := s.core;
    ResolveOnward(s, 0, request.principal, now);
    if ReadError(c, request).None? && request.mode.Changes? {
      ReadChangesOnward(s, request, rid, now);
    }
  }

  lemma ReadChangesOnward(s: System, request: ReadRequest, rid: ReadId, now: int)
    requires Inv(s) && request.subscription in s.core.groups
    requires var g := s.core.groups[request.subscription]; |g.buffer| <= g.total
    requires ReadError(s.core, request).None? && request.mode.Changes?
    ensures Onward(s, OnRead(s, request, rid, now))
  {
    hide LogsAgree, RoutingSound, TokensKept, FeedsKept, OpsFit, CursorsBounded, ReadsParked, PagesAgree;
    hide PageFrom, NextOffset, Successor, Onward, Located, Presentable, ReadError, AfterResolve;
    var c := s.core;
    if request.cursor.None? {
      StartLocated(request.subscription, s.issued);
      ReadFromOnward(s, request, rid, Position(None, 0), now);
    } else {
      var id := request.cursor.value;
      ResolveOnward(s, id, request.principal, now);
      if CursorAccepted(c, request, id, now) {
        CursorIsStored(c, request, id, now);
        CursorLocates(s, request, id, now);
        ReadFromOnward(s, request, rid, Position(Some(c.cursors.entries[id]), c.cursors.entries[id].offset), now);
      }
    }
  }

  lemma StartLocated(gid: GroupId, issued: map<CursorId, Cursor>)
    ensures Located(Position(None, 0), gid, issued)
  {
  }

  lemma ReadDoneOnward(s: System, rid: ReadId, now: int)
    requires Inv(s) && rid in s.parked && s.core.longPolls > 0 && s.parked[rid].gid in s.core.groups
    requires |s.core.groups[s.parked[rid].gid].buffer| <= s.core.groups[s.parked[rid].gid].total
    ensures Onward(s, OnReadDone(s, rid, now))
  {
    hide LogsAgree, RoutingSound, TokensKept, FeedsKept, OpsFit, CursorsBounded, ReadsParked, PagesAgree;
    hide Located, PageFrom, Onward;
    var r := s.parked[rid];
    UnparkKeeps(s, rid);
    ParkedLocated(s, rid);
    var s1 := Unparked(s, rid);
    UnparkOnward(s, rid);
    ServingOnward(s1, r.gid, r.position, r.limit, r.principal, now);
    SamePage(s.core.groups[r.gid], s1.core.groups[r.gid], r.position.offset, r.limit);
    assert OnReadDone(s, rid, now) == Serving(s1, r.gid, r.position, r.limit, r.principal, now);
    OnwardTrans(s, s1, OnReadDone(s, rid, now));
  }

  lemma UnparkOnward(s: System, rid: ReadId)
    requires Inv(s) && rid in s.parked && s.parked[rid].gid in s.core.groups && s.core.longPolls > 0
    ensures Onward(s, Unparked(s, rid))
  {
    hide LogsAgree, RoutingSound, TokensKept, FeedsKept, OpsFit, CursorsBounded, ReadsParked, PagesAgree;
    hide Carried, Prospective, Unaccepted, Tokens, Route, LogsGrow, GroupsAdvance, TokensStayRetired, HandlesStayGone;
    var c := s.core;
    var gid := s.parked[rid].gid;
    HandlesShrink(c.cursors, c.cursors);
    RetiredShrink(c.tokenCounter, c.tokenMap.Keys, Prospective(s.ops), c.tokenMap.Keys, 0);
    SameLogs(s.logs);
    AdvancePut(c.groups, gid, c.groups[gid].(waiters := c.groups[gid].waiters - {rid}), c.supply);
  }

  lemma CommitOnward(s: System, gid: GroupId)
    requires Inv(s) && gid in s.core.groups && gid in s.ops && s.ops[gid].Resubscribing?
    ensures Onward(s, s.(core := ResubscribeCommit(s.core, gid, s.ops[gid].items), ops := s.ops - {gid},
                         logs := s.logs[(gid, s.core.groups[gid].generation + 1) := []]))
  {
    hide LogsAgree, RoutingSound, TokensKept, FeedsKept, OpsFit, CursorsBounded, ReadsParked, PagesAgree;
    hide Carried, Prospective, Unaccepted, Tokens, Route, LogsGrow, GroupsAdvance, TokensStayRetired, HandlesStayGone;
    hide Onward, Recompute;
    var c := s.core;
    var g := c.groups[gid];
    var items := s.ops[gid].items;
    var left := c.tokenMap - Tokens(g.items);
    assert left.Keys == c.tokenMap.Keys - Tokens(g.items);
    OpInFlight(s, gid);
    OpDrop(s.ops, gid);
    ProspectiveUnrouted(s, gid);
    RouteKeys(left, gid, items);
    RenewalLogsGrow(s, gid);
    RetiredCommit(c.tokenCounter, c.tokenMap.Keys, Prospective(s.ops), Tokens(g.items), gid);
    AdvancePut(c.groups, gid, NextGeneration(g, items, Recompute(items, GroupStatus.Starting)), c.supply);
    HandlesShrink(c.cursors, Invalidate(c.cursors, gid));
    Assemble(s, s.(core := ResubscribeCommit(c, gid, items), ops := s.ops - {gid},
                   logs := s.logs[(gid, g.generation + 1) := []]));
  }

  lemma AbortOnward(s: System, gid: GroupId, outcome: Outcome)
    requires Inv(s) && gid in s.core.groups && gid in s.ops && s.ops[gid].Resubscribing? && outcome.Raised?
    ensures Onward(s, OnResubscribeDone(s, gid, outcome))
  {
    hide Inv, Carried, Prospective, Unaccepted, Tokens, LogsGrow, GroupsAdvance, TokensStayRetired, HandlesStayGone,
         Onward;
    var c := s.core;
    OpDrop(s.ops, gid);
    ProspectiveUnrouted(s, gid);
    RetiredShrink(c.tokenCounter, c.tokenMap.Keys, Prospective(s.ops), c.tokenMap.Keys, gid);
    AdvanceNone(c.groups, c.supply);
    HandlesShrink(c.cursors, c.cursors);
    SameLogs(s.logs);
    Assemble(s, OnResubscribeDone(s, gid, outcome));
  }

  lemma ResubscribeDoneOnward(s: System, gid: GroupId, outcome: Outcome)
    requires Inv(s) && gid in s.core.groups && gid in s.ops && s.ops[gid].Resubscribing? && Fits(s.ops[gid], outcome)
    ensures Onward(s, OnResubscribeDone(s, gid, outcome))
  {
    hide Inv, ResubscribeCommit, Tokens, Onward;
    if outcome.Succeeded? {
      CommitOnward(s, gid);
    } else {
      AbortOnward(s, gid, outcome);
    }
  }

  lemma RenewedOnward(s: System, gid: GroupId, items: seq<Item>, g': Group, routed: map<Token, (GroupId, ItemId)>)
    requires Inv(s) && gid !in s.ops && gid in s.core.groups && s.core.groups[gid].status.Running()
    requires g' == NextGeneration(s.core.groups[gid], items, GroupStatus.Starting)
    requires TokensStayRetired(s.core.tokenCounter, s.core.tokenMap.Keys, Prospective(s.ops),
                               s.core.tokenCounter + |items|, routed.Keys, Prospective(s.ops))
    ensures Onward(s, s.(core := s.core.(groups := s.core.groups[gid := g'], tokenMap := routed,
                                         tokenCounter := s.core.tokenCounter + |items|,
                                         cursors := Invalidate(s.core.cursors, gid)),
                         ops := s.ops[gid := Restoring(Tokens(items), false)],
                         logs := s.logs[(gid, g'.generation) := []]))
  {
    hide Inv, Prospective, Tokens, LogsGrow, GroupsAdvance, TokensStayRetired, Onward;
    var c := s.core;
    RenewalLogsGrow(s, gid);
    AdvancePut(c.groups, gid, g', c.supply);
    RoutedOnward(s, gid, g', Restoring(Tokens(items), false), routed, c.tokenCounter + |items|, c.supply,
                 Invalidate(c.cursors, gid));
  }

  lemma RestoreOnward(s: System, gid: GroupId)
    requires Inv(s) && gid !in s.ops && gid in s.core.groups && s.core.groups[gid].status.Running()
    ensures Onward(s, OnRestore(s, gid))
  {
    hide Inv, Prospective, Tokens, Route, TokensStayRetired, Renewed, Onward, Invalidate;
    var c := s.core;
    var g := c.groups[gid];
    var items := Renewed(g.items, c.tokenCounter);
    RenewedTokens(s, gid);
    RenewedOnward(s, gid, items, NextGeneration(g, items, GroupStatus.Starting),
                  Route(c.tokenMap - Tokens(g.items), gid, items));
  }

  /** Ending an operation that commits nothing new. */
  lemma EndOnward(s: System, gid: GroupId, core': Core, live': set<Token>)
    requires Inv(s) && gid in s.ops && gid in s.core.groups
    requires core' == s.core.(groups := core'.groups, tokenMap := core'.tokenMap, pending := core'.pending,
                              cursors := core'.cursors)
    requires core'.tokenMap.Keys <= s.core.tokenMap.Keys
    requires GroupsAdvance(s.core.groups, core'.groups, s.core.supply)
    requires core'.cursors.next == s.core.cursors.next && core'.cursors.entries.Keys <= s.core.cursors.entries.Keys
    ensures Onward(s, s.(core := core', ops := s.ops - {gid}, live := live'))
  {
    hide LogsAgree, RoutingSound, TokensKept, FeedsKept, OpsFit, CursorsBounded, ReadsParked, PagesAgree;
    hide Carried, Prospective, Unaccepted, Tokens, Route, LogsGrow, GroupsAdvance, TokensStayRetired, HandlesStayGone;
    OpDrop(s.ops, gid);
    RetiredShrink(s.core.tokenCounter, s.core.tokenMap.Keys, Prospective(s.ops), core'.tokenMap.Keys, gid);
    HandlesShrink(s.core.cursors, core'.cursors);
    SameLogs(s.logs);
  }

  lemma CreateDoneOnward(s: System, gid: GroupId, outcome: Outcome)
    requires Inv(s) && gid in s.ops && s.ops[gid].Creating?
    ensures Onward(s, OnCreateDone(s, gid, outcome))
  {
    hide LogsAgree, RoutingSound, TokensKept, FeedsKept, OpsFit, CursorsBounded, ReadsParked, PagesAgree;
    hide Carried, Prospective, Unaccepted, Tokens, Route, LogsGrow, GroupsAdvance, TokensStayRetired, HandlesStayGone;
    hide Onward;
    var c := s.core;
    OpInFlight(s, gid);
    AdvancePut(c.groups, gid, c.groups[gid], c.supply);
    if outcome.Succeeded? {
      EndOnward(s, gid, c, s.live);
    } else {
      EndOnward(s, gid, CreateAbort(c, gid, s.ops[gid].tokens), s.live + outcome.left);
    }
  }

  lemma CancelDoneOnward(s: System, gid: GroupId, ok: bool)
    requires Inv(s) && gid in s.ops && s.ops[gid].Cancelling? && gid in s.core.groups
    ensures Onward(s, OnCancelDone(s, gid, ok))
  {
    hide LogsAgree, RoutingSound, TokensKept, FeedsKept, OpsFit, CursorsBounded, ReadsParked, PagesAgree;
    hide Carried, Prospective, Unaccepted, Tokens, Route, LogsGrow, GroupsAdvance, TokensStayRetired, HandlesStayGone;
    hide Onward;
    var core' := CancelFinish(s.core, gid, s.ops[gid].tokens, ok);
    AdvancePut(s.core.groups, gid, core'.groups[gid], s.core.supply);
    EndOnward(s, gid, core', if ok then s.live - s.ops[gid].tokens else s.live);
  }

  lemma ExpireDoneOnward(s: System, gid: GroupId, ok: bool)
    requires Inv(s) && gid in s.ops && s.ops[gid].Expiring? && gid in s.core.groups
    ensures Onward(s, OnExpireDone(s, gid, ok))
  {
    hide LogsAgree, RoutingSound, TokensKept, FeedsKept, OpsFit, CursorsBounded, ReadsParked, PagesAgree;
    hide Carried, Prospective, Unaccepted, Tokens, Route, LogsGrow, GroupsAdvance, TokensStayRetired, HandlesStayGone;
    hide Onward;
    var core' := ExpireFinish(s.core, gid, s.ops[gid].tokens, ok);
    OpInFlight(s, gid);
    AdvancePut(s.core.groups, gid, core'.groups[gid], s.core.supply);
    EndOnward(s, gid, core', if ok then s.live - s.ops[gid].tokens else s.live);
  }

  lemma RestoreDoneOnward(s: System, gid: GroupId, outcome: Outcome)
    requires Inv(s) && gid in s.ops && s.ops[gid].Restoring? && gid in s.core.groups
    ensures Onward(s, OnRestoreDone(s, gid, outcome))
  {
    hide LogsAgree, RoutingSound, TokensKept, FeedsKept, OpsFit, CursorsBounded, ReadsParked, PagesAgree;
    hide Carried, Prospective, Unaccepted, Tokens, Route, LogsGrow, GroupsAdvance, TokensStayRetired, HandlesStayGone;
    hide Onward;
    var c := s.core;
    OpInFlight(s, gid);
    AdvancePut(c.groups, gid, c.groups[gid].(status := GroupStatus.Failed), c.supply);
    if outcome.Succeeded? {
      EndOnward(s, gid, c, s.live);
    } else {
      EndOnward(s, gid, RestoreAbort(c, gid, s.ops[gid].tokens), s.live + outcome.left);
    }
  }

  /** Steps that leave the groups, the routing and the cursors alone. */
  lemma AsideOnward(s: System, ops': map<GroupId, Op>, pending': set<Token>, live': set<Token>)
    requires Prospective(ops') == Prospective(s.ops)
    ensures Onward(s, s.(core := s.core.(pending := pending'), ops := ops', live := live'))
  {
    hide LogsAgree, RoutingSound, TokensKept, FeedsKept, OpsFit, CursorsBounded, ReadsParked, PagesAgree;
    hide Carried, Prospective, Unaccepted, Tokens, Route, LogsGrow, GroupsAdvance, TokensStayRetired, HandlesStayGone;
    var c := s.core;
    RetiredShrink(c.tokenCounter, c.tokenMap.Keys, Prospective(s.ops), c.tokenMap.Keys, 0);
    AdvanceNone(c.groups, c.supply);
    HandlesShrink(c.cursors, c.cursors);
    SameLogs(s.logs);
  }

  lemma OtherOnward(s: System, a: Action)
    requires Inv(s) && Enabled(s, a)
    requires a.Cancel? || a.Expire? || a.Retry? || a.Accept? || a.SessionLost?
    ensures Onward(s, Next(s, a))
  {
    hide LogsAgree, RoutingSound, TokensKept, FeedsKept, OpsFit, CursorsBounded, ReadsParked, PagesAgree;
    hide Carried, Prospective, Unaccepted, Tokens, Route, LogsGrow, GroupsAdvance, TokensStayRetired, HandlesStayGone;
    hide Onward;
    var pending := s.core.pending;
    match a
    case Cancel(principal, gid, admin) =>
      AsideOnward(s, s.ops, pending, s.live);
      var result := CancelBegin(s.core, principal, gid, admin);
      if result.Ok? && result.value.Some? {
        OpPut(s.ops, gid, Op.Cancelling(result.value.value));
        AsideOnward(s, s.ops[gid := Op.Cancelling(result.value.value)], pending, s.live);
      }
    case Expire(gid, _) =>
      OpPut(s.ops, gid, Expiring(Tokens(s.core.groups[gid].items)));
      AsideOnward(s, s.ops[gid := Expiring(Tokens(s.core.groups[gid].items))], pending, s.live);
    case Retry(token, ok) =>
      AsideOnward(s, s.ops, if ok then pending - {token} else pending, if ok then s.live - {token} else s.live);
    case Accept(gid) =>
      OpAccept(s.ops, gid);
      AsideOnward(s, s.ops[gid := s.ops[gid].(accepted := true)], pending, s.live + OpTokens(s.ops[gid]));
    case SessionLost =>
      AsideOnward(s, s.ops, pending, {});
  }

  lemma ResubscribeOnward(s: System, principal: string, gid: GroupId, specs: seq<Spec>, admin: bool)
    requires Inv(s) && gid !in s.ops
    ensures Onward(s, OnResubscribe(s, principal, gid, specs, admin))
  {
    hide LogsAgree, RoutingSound, TokensKept, FeedsKept, OpsFit, CursorsBounded, ReadsParked, PagesAgree;
    hide Carried, Prospective, Unaccepted, Tokens, Route, LogsGrow, GroupsAdvance, TokensStayRetired, HandlesStayGone;
    hide Onward;
    var c := s.core;
    if ResubscribeError(c, s.cfg, principal, gid, specs, admin).Some? {
      ResolveOnward(s, 0, "", 0);
    } else {
      var n := Accepted(specs, s.cfg);
      var items := NewItems(specs[..n], c.tokenCounter, c.supply);
      CreatedTokens(s, specs[..n], c.supply, gid);
      assert n == |specs| ==> specs[..n] == specs;
      DrawnOnward(s, c.tokenMap, s.ops, c.tokenCounter + n, c.supply + n);
      DrawnOnward(s, c.tokenMap, s.ops[gid := Op.Resubscribing(items, false)], c.tokenCounter + n, c.supply + n);
    }
  }

  lemma NextOnward(s: System, a: Action)
    requires Inv(s)
    ensures Onward(s, Next(s, a))
  {
    hide Inv, OnCreate, OnCreateDone, OnNative, OnRead, OnReadDone, OnResubscribe, OnResubscribeDone, OnCancel,
         OnCancelDone, OnExpireDone, OnRestore, OnRestoreDone, Tokens, RetryFinish, Onward;
    if Enabled(s, a) {
      match a
      case Create(principal, specs, retention, now) => CreateOnward(s, principal, specs, retention, now);
      case CreateDone(gid, outcome) => CreateDoneOnward(s, gid, outcome);
      case Native(event) => NativeOnward(s, event);
      case Read(request, rid, now) => ReadOnward(s, request, rid, now);
      case ReadDone(rid, now) => ReadDoneOnward(s, rid, now);
      case Resubscribe(principal, gid, specs, admin) => ResubscribeOnward(s, principal, gid, specs, admin);
      case ResubscribeDone(gid, outcome) => ResubscribeDoneOnward(s, gid, outcome);
      case CancelDone(gid, ok) => CancelDoneOnward(s, gid, ok);
      case ExpireDone(gid, ok) => ExpireDoneOnward(s, gid, ok);
      case Restore(gid) => RestoreOnward(s, gid);
      case RestoreDone(gid, outcome) => RestoreDoneOnward(s, gid, outcome);
      case _ => OtherOnward(s, a);
    } else {
      AsideOnward(s, s.ops, s.core.pending, s.live);
    }
  }

  lemma OnwardTrans(s: System, s1: System, s2: System)
    requires Inv(s) && Onward(s, s1) && Onward(s1, s2)
    ensures Onward(s, s2)
  {
    hide LogsAgree, RoutingSound, TokensKept, FeedsKept, OpsFit, CursorsBounded, ReadsParked, PagesAgree;
    hide Tokens, Retired, Prospective;
    forall gid <- s2.core.groups
      ensures if gid in s.core.groups then Advances(s.core.groups[gid], s2.core.groups[gid]) else gid >= s.core.supply
    {
      if gid in s.core.groups {
        GroupInv(s, gid);
      }
    }
  }

  /** Whatever a run does, it goes onward from where it started. */
  lemma {:induction false} RunOnward(s: System, actions: seq<Action>)
    requires Inv(s)
    ensures Onward(s, Run(s, actions))
  {
    hide Inv, Next, Onward;
    if actions == [] {
      ResolveOnward(s, 0, "", 0);
    } else {
      var before := Run(s, actions[..|actions| - 1]);
      RunOnward(s, actions[..|actions| - 1]);
      RunKeeps(s, actions[..|actions| - 1]);
      NextOnward(before, actions[|actions| - 1]);
      OnwardTrans(s, before, Run(s, actions));
    }
  }
}
