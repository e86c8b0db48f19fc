/**
 The status of an item, measured against the signals of the run: it is the last status signal that its token got while
 it was routed. In particular an event changes no item but the one that carries its token.
 */
module SubscriptionSignals {
  import opened Wrappers
  import opened Cursors
  import opened SubscriptionModel
  import opened SubscriptionSystem
  import opened SubscriptionLedger
  import opened SubscriptionFrames
  import opened SubscriptionSafety
  import opened SubscriptionReplace
  import opened SubscriptionRuns
  import opened SubscriptionSteps
  import opened SubscriptionFeeds

  /** What a status signal says of an item. */
  ghost predicate Says(signal: Signal, status: ItemStatus) {
    match signal
    case Started => status == ItemStatus.Active
    case Failure => status == ItemStatus.Failed
    case Terminated => status == ItemStatus.Failed
    case Unsubscribed => status == ItemStatus.Cancelled
    case Data => false
  }

  /** A status signal arrives for a token that is routed. */
  ghost predicate Hears(s: System, a: Action, t: Token) {
    a.Native? && a.event.token == t && !a.event.signal.Data? && t in s.core.tokenMap
  }

  /** The status is what the last signal heard says; before the first one it is STARTING. */
  ghost predicate LastSaid(s: System, actions: seq<Action>, t: Token, status: ItemStatus) {
    if actions == [] then status == ItemStatus.Starting
    else
      var init, last := actions[..|actions| - 1], actions[|actions| - 1];
      if Hears(Run(s, init), last, t) then Says(last.event.signal, status) else LastSaid(s, init, t, status)
  }

  /** What has been said of each token so far. */
  type Said = (Token, ItemStatus) -> bool

  ghost predicate Updates(s: System, a: Action, said: Said, said': Said) {
    forall t: Token, status :: said'(t, status) <==> if Hears(s, a, t) then Says(a.event.signal, status)
                                                     else said(t, status)
  }

  // ------------------------------------------------------------------ the invariant

  /** Its own tokens, where they are routed, are routed to it; and its items show what was said, unless it is over. */
  ghost predicate GroupShows(gid: GroupId, g: Group, tokenMap: map<Token, (GroupId, ItemId)>, said: Said) {
    forall i | 0 <= i < |g.items| ::
      && (g.items[i].token in tokenMap ==> tokenMap[g.items[i].token] == (gid, g.items[i].id))
      && ItemShows(g.status, g.items[i], said)
  }

  ghost predicate ItemShows(status: GroupStatus, item: Item, said: Said) {
    match status
    case Cancelled => item.status == ItemStatus.Cancelled
    case Expired => item.status == ItemStatus.Expired
    case _ => said(item.token, item.status)
  }

  /** The items of a replacement in flight have heard nothing, and no two share a token. */
  ghost predicate OpShows(op: Op, said: Said) {
    op.Resubscribing? ==> ItemsNew(op.items, said)
  }

  ghost predicate ItemsNew(items: seq<Item>, said: Said) {
    && (forall i | 0 <= i < |items| ::
          items[i].status == ItemStatus.Starting && said(items[i].token, ItemStatus.Starting))
    && (forall i, j | 0 <= i < j < |items| :: items[i].token != items[j].token)
  }

  ghost predicate Shown(s: System, said: Said) {
    && (forall gid <- s.core.groups :: GroupShows(gid, s.core.groups[gid], s.core.tokenMap, said))
    && (forall gid <- s.ops :: OpShows(s.ops[gid], said))
    && (forall t: Token | t > s.core.tokenCounter :: said(t, ItemStatus.Starting))
  }

  lemma RouteHomes(tokenMap: map<Token, (GroupId, ItemId)>, gid: GroupId, items: seq<Item>, i: nat)
    requires i < |items| && forall j, k | 0 <= j < k < |items| :: items[j].token != items[k].token
    ensures items[i].token in Route(tokenMap, gid, items)
    ensures Route(tokenMap, gid, items)[items[i].token] == (gid, items[i].id)
  {
    assert items[i] in items;
    RouteKeys(tokenMap, gid, items);
    RouteEntries(tokenMap, gid, items, items[i].token);
  }

  /** A group that does not change, while others are routed and unrouted. */
  lemma GroupStays(gid: GroupId, g: Group, tokenMap: map<Token, (GroupId, ItemId)>,
                   tokenMap': map<Token, (GroupId, ItemId)>, said: Said)
    requires GroupShows(gid, g, tokenMap, said)
    requires forall t <- tokenMap' :: t in Tokens(g.items) ==> t in tokenMap && tokenMap'[t] == tokenMap[t]
    ensures GroupShows(gid, g, tokenMap', said)
  {
    forall i | 0 <= i < |g.items|
      ensures g.items[i].token in tokenMap' ==> tokenMap'[g.items[i].token] == (gid, g.items[i].id) {
      assert g.items[i] in g.items;
    }
  }

  /** New items of a group, routed in place of its old ones. */
  lemma RenewedShows(gid: GroupId, g': Group, left: map<Token, (GroupId, ItemId)>, said: Said)
    requires ItemsNew(g'.items, said) && !g'.status.Terminal()
    ensures GroupShows(gid, g', Route(left, gid, g'.items), said)
  {
    forall i | 0 <= i < |g'.items|
      ensures g'.items[i].token in Route(left, gid, g'.items)
      ensures Route(left, gid, g'.items)[g'.items[i].token] == (gid, g'.items[i].id) {
      RouteHomes(left, gid, g'.items, i);
    }
  }

  /** Tokens routed anew belong to nobody else, so that every other group stays. */
  lemma OthersStay(s: System, gid: GroupId, gone: set<Token>, items: seq<Item>, h: GroupId, said: Said)
    requires Shown(s, said) && h in s.core.groups && Tokens(items) !! Tokens(s.core.groups[h].items)
    ensures GroupShows(h, s.core.groups[h], Route(s.core.tokenMap - gone, gid, items), said)
    ensures GroupShows(h, s.core.groups[h], s.core.tokenMap - gone, said)
  {
    hide Tokens, GroupShows;
    var left := s.core.tokenMap - gone;
    var routed := Route(left, gid, items);
    RouteKeys(left, gid, items);
    forall t <- routed
      ensures t in Tokens(s.core.groups[h].items) ==> t in s.core.tokenMap && routed[t] == s.core.tokenMap[t] {
      RouteEntries(left, gid, items, t);
    }
    GroupStays(h, s.core.groups[h], s.core.tokenMap, routed, said);
    GroupStays(h, s.core.groups[h], s.core.tokenMap, left, said);
  }

  /** Newly drawn tokens are nobody's, and nothing was said of them. */
  lemma FreshApart(s: System, items: seq<Item>, n: nat, h: GroupId)
    requires Inv(s) && h in s.core.groups && Fresh(Tokens(items), s.core.tokenCounter, s.core.tokenCounter + n)
    ensures Tokens(items) !! Tokens(s.core.groups[h].items)
  {
    hide Inv, Tokens;
    GroupInv(s, h);
  }

  lemma DrawnNew(s: System, items: seq<Item>, said: Said)
    requires Shown(s, said)
    requires forall i | 0 <= i < |items| ::
               items[i].token == s.core.tokenCounter + 1 + i && items[i].status == ItemStatus.Starting
    ensures ItemsNew(items, said)
  {
    hide GroupShows, OpShows;
  }

  // ------------------------------------------------------------------------ steps

  /** One group changes, its operation with it, and the routing of tokens that are not others'. */
  lemma OneChanges(s: System, s': System, gid: GroupId, said: Said)
    requires Shown(s, said) && s.core.tokenCounter <= s'.core.tokenCounter
    requires Elsewhere(s.core.groups, s'.core.groups, gid) && Elsewhere(s.ops, s'.ops, gid)
    requires forall h <- s.core.groups | h != gid :: GroupShows(h, s.core.groups[h], s'.core.tokenMap, said)
    requires gid in s'.core.groups ==> GroupShows(gid, s'.core.groups[gid], s'.core.tokenMap, said)
    requires gid in s'.ops ==> OpShows(s'.ops[gid], said)
    ensures Shown(s', said)
  {
    hide GroupShows, OpShows;
    forall h <- s'.core.groups ensures GroupShows(h, s'.core.groups[h], s'.core.tokenMap, said) {
      assert h != gid ==> h in s.core.groups;
    }
    forall h <- s'.ops ensures OpShows(s'.ops[h], said) {
      assert h != gid ==> h in s.ops;
    }
  }

  lemma ShownAt(s: System, gid: GroupId, said: Said)
    requires Shown(s, said)
    ensures gid in s.core.groups ==> GroupShows(gid, s.core.groups[gid], s.core.tokenMap, said)
    ensures gid in s.ops ==> OpShows(s.ops[gid], said)
  {
    hide GroupShows, OpShows;
  }

  lemma OtherOp(op: Op, said: Said)
    requires !op.Resubscribing?
    ensures OpShows(op, said)
  {
  }

  lemma Unchanged<K, V>(m: map<K, V>, key: K)
    ensures Elsewhere(m, m, key)
  {
  }

  lemma CreateShows(s: System, a: Action, said: Said)
    requires Inv(s) && Shown(s, said) && a.Create?
    ensures Shown(Next(s, a), said)
  {
    hide Inv, CreateError, Route, Accepted, Tokens, Shown, GroupShows, OpShows, NewItems, Elsewhere, Fresh, ItemsNew;
    var c, gid, s' := s.core, s.core.supply, Next(s, a);
    NextIdUnused(s);
    Unchanged(s.core.groups, gid);
    Unchanged(s.ops, gid);
    if CreateError(c, s.cfg, a.principal, a.specs, a.retention).None? {
      NoRefusal(c, s.cfg, a.principal, a.specs, a.retention);
      var n := Accepted(a.specs, s.cfg);
      var items := NewItems(a.specs[..n], c.tokenCounter, gid + 1);
      NewItemsFacts(a.specs[..n], c.tokenCounter, gid + 1);
      forall h <- s.core.groups ensures GroupShows(h, s.core.groups[h], Route(c.tokenMap - {}, gid, items), said) {
        FreshApart(s, items, n, h);
        OthersStay(s, gid, {}, items, h, said);
      }
      assert c.tokenMap - {} == c.tokenMap;
      if n == |a.specs| {
        assert a.specs[..n] == a.specs;
        NewlyDrawn(s, a.specs, items, gid, said);
        RenewedShows(gid, s'.core.groups[gid], c.tokenMap, said);
        OtherOp(s'.ops[gid], said);
        ElsewherePut(c.groups, gid, s'.core.groups[gid]);
        ElsewherePut(s.ops, gid, s'.ops[gid]);
      }
      OneChanges(s, s', gid, said);
    }
  }

  lemma NewlyDrawn(s: System, specs: seq<Spec>, items: seq<Item>, gid: GroupId, said: Said)
    requires Shown(s, said) && items == NewItems(specs, s.core.tokenCounter, gid + 1)
    ensures ItemsNew(items, said)
  {
    hide Shown;
    DrawnNew(s, items, said);
  }

  lemma CreateDoneShows(s: System, a: Action, said: Said)
    requires Shown(s, said) && Enabled(s, a) && a.CreateDone?
    ensures Shown(Next(s, a), said)
  {
    hide Shown, GroupShows, OpShows, Tokens, Fits, Elsewhere;
    var s' := Next(s, a);
    ElsewherePut(s.ops, a.gid, s.ops[a.gid]);
    forall h <- s.core.groups ensures GroupShows(h, s.core.groups[h], s'.core.tokenMap, said) {
      ShownAt(s, h, said);
      GroupStays(h, s.core.groups[h], s.core.tokenMap, s'.core.tokenMap, said);
    }
    Unchanged(s.core.groups, a.gid);
    ShownAt(s, a.gid, said);
    if a.outcome.Raised? {
      Dropped(s.core.groups, a.gid);
    }
    OneChanges(s, s', a.gid, said);
  }

  lemma Dropped<K, V>(m: map<K, V>, key: K)
    ensures Elsewhere(m, m - {key}, key)
  {
  }

  lemma ResubscribeShows(s: System, a: Action, said: Said)
    requires Shown(s, said) && Enabled(s, a) && a.Resubscribe?
    ensures Shown(Next(s, a), said)
  {
    hide GroupShows, Accepted, ResubscribeError;
    var (c', result) := ResubscribeBegin(s.core, s.cfg, a.owner, a.gid, a.specs, a.admin);
    if result.Ok? {
      DrawnNew(s, result.value, said);
    }
  }

  lemma CommitShows(s: System, a: Action, said: Said)
    requires Inv(s) && Shown(s, said) && Enabled(s, a) && a.ResubscribeDone?
    ensures Shown(Next(s, a), said)
  {
    hide Inv, Shown, GroupShows, OpShows, Tokens, Fits, Elsewhere, Route, Recompute, Invalidate, ItemsNew;
    var gid, s' := a.gid, Next(s, a);
    var items, g := s.ops[gid].items, s.core.groups[gid];
    ShownAt(s, gid, said);
    ElsewherePut(s.ops, gid, s.ops[gid]);
    if a.outcome.Succeeded? {
      forall h <- s.core.groups | h != gid ensures GroupShows(h, s.core.groups[h], s'.core.tokenMap, said) {
        ProspectiveApart(s, gid, h);
        OthersStay(s, gid, Tokens(g.items), items, h, said);
      }
      OpNew(s.ops[gid], said);
      RecomputeRuns(items, GroupStatus.Starting);
      RenewedShows(gid, s'.core.groups[gid], s.core.tokenMap - Tokens(g.items), said);
      ElsewherePut(s.core.groups, gid, s'.core.groups[gid]);
    } else {
      forall h <- s.core.groups ensures GroupShows(h, s.core.groups[h], s'.core.tokenMap, said) {
        ShownAt(s, h, said);
        GroupStays(h, s.core.groups[h], s.core.tokenMap, s'.core.tokenMap, said);
      }
      Unchanged(s.core.groups, gid);
    }
    OneChanges(s, s', gid, said);
  }

  lemma OpNew(op: Op, said: Said)
    requires OpShows(op, said) && op.Resubscribing?
    ensures ItemsNew(op.items, said)
  {
  }

  lemma ProspectiveApart(s: System, gid: GroupId, h: GroupId)
    requires Inv(s) && gid in s.ops && s.ops[gid].Resubscribing? && h in s.core.groups
    ensures Tokens(s.ops[gid].items) !! Tokens(s.core.groups[h].items)
  {
    hide LogsAgree, RoutingSound, FeedsKept, OpsFit, CursorsBounded, ReadsParked, PagesAgree, Tokens;
    assert Prospective(s.ops)[gid] == Tokens(s.ops[gid].items);
    assert Carried(s.core.groups)[h] == Tokens(s.core.groups[h].items);
  }

  lemma RestoreShows(s: System, a: Action, said: Said)
    requires Inv(s) && Shown(s, said) && Enabled(s, a) && a.Restore?
    ensures Shown(Next(s, a), said)
  {
    hide Inv, Shown, GroupShows, OpShows, Tokens, Elsewhere, Route, Invalidate, Renewed, Fresh, ItemsNew;
    var gid, s' := a.gid, Next(s, a);
    var g := s.core.groups[gid];
    var items := Renewed(g.items, s.core.tokenCounter);
    RenewedFacts(g.items, s.core.tokenCounter);
    forall h <- s.core.groups | h != gid ensures GroupShows(h, s.core.groups[h], s'.core.tokenMap, said) {
      FreshApart(s, items, |g.items|, h);
      OthersStay(s, gid, Tokens(g.items), items, h, said);
    }
    RenewedNew(s, g.items, items, said);
    RenewedShows(gid, s'.core.groups[gid], s.core.tokenMap - Tokens(g.items), said);
    OtherOp(s'.ops[gid], said);
    ElsewherePut(s.core.groups, gid, s'.core.groups[gid]);
    ElsewherePut(s.ops, gid, s'.ops[gid]);
    OneChanges(s, s', gid, said);
  }

  lemma RenewedNew(s: System, items: seq<Item>, items': seq<Item>, said: Said)
    requires Shown(s, said) && items' == Renewed(items, s.core.tokenCounter)
    ensures ItemsNew(items', said)
  {
    hide Shown;
    DrawnNew(s, items', said);
  }

  lemma EndShows(s: System, a: Action, said: Said)
    requires Inv(s) && Shown(s, said) && Enabled(s, a) && (a.CancelDone? || a.ExpireDone? || a.RestoreDone?)
    ensures Shown(Next(s, a), said)
  {
    hide Inv, Shown, OpShows, GroupShows, Tokens, Fits, Elsewhere, Invalidate;
    var gid, s' := a.gid, Next(s, a);
    OpInFlight(s, gid);
    ElsewherePut(s.ops, gid, s.ops[gid]);
    ElsewherePut(s.core.groups, gid, s'.core.groups[gid]);
    forall h <- s.core.groups ensures GroupShows(h, s.core.groups[h], s'.core.tokenMap, said) {
      ShownAt(s, h, said);
      GroupStays(h, s.core.groups[h], s.core.tokenMap, s'.core.tokenMap, said);
    }
    MarkedShows(gid, s.core.groups[gid], s'.core.groups[gid], s'.core.tokenMap, said);
    OneChanges(s, s', gid, said);
  }

  /** Items marked as the group is, or a group that was not over and still is not. */
  lemma MarkedShows(gid: GroupId, g: Group, g': Group, tokenMap: map<Token, (GroupId, ItemId)>, said: Said)
    requires GroupShows(gid, g, tokenMap, said)
    requires (g'.status.Cancelled? && g'.items == WithStatus(g.items, ItemStatus.Cancelled))
             || (g'.status.Expired? && g'.items == WithStatus(g.items, ItemStatus.Expired))
             || g' == g || (!g.status.Terminal() && !g'.status.Terminal() && g'.items == g.items)
    ensures GroupShows(gid, g', tokenMap, said)
  {
  }

  lemma QuietShows(s: System, s': System, said: Said)
    requires Shown(s, said) && Looks(s.core, s'.core) && s'.ops == s.ops
    ensures Shown(s', said)
  {
    forall gid <- s'.core.groups ensures GroupShows(gid, s'.core.groups[gid], s'.core.tokenMap, said) {
      assert GroupShows(gid, s.core.groups[gid], s.core.tokenMap, said);
    }
  }

  lemma LookingShows(s: System, a: Action, said: Said)
    requires Shown(s, said) && Enabled(s, a) && (a.Read? || a.ReadDone?)
    ensures Shown(Next(s, a), said)
  {
    hide Shown, OnRead, OnReadDone, Looks;
    match a {
      case Read(request, rid, now) => ReadLooks(s, request, rid, now);
      case ReadDone(rid, now) => ReadDoneLooks(s, rid, now);
    }
    QuietShows(s, Next(s, a), said);
  }

  lemma BeginShows(s: System, a: Action, said: Said)
    requires Shown(s, said) && Enabled(s, a)
    requires a.Cancel? || a.Expire? || a.Accept? || a.Retry? || a.SessionLost?
    ensures Shown(Next(s, a), said)
  {
    hide GroupShows, ItemsNew, Tokens, OpTokens, CancelBegin, Due;
  }

  // ----------------------------------------------------------------------- events

  /** The one item that carries the token of an event that reaches a group, and where it is. */
  lemma Reached(s: System, event: Event, said: Said)
    requires Inv(s) && Shown(s, said) && Target(s.core, event.token).Some?
    ensures var (gid, i) := Target(s.core, event.token).value;
            && gid in s.core.groups && i < |s.core.groups[gid].items| && !s.core.groups[gid].status.Terminal()
            && s.core.groups[gid].items[i].token == event.token
            && forall h, j | h in s.core.groups && 0 <= j < |s.core.groups[h].items| &&
                             s.core.groups[h].items[j].token == event.token :: h == gid && j == i
  {
    hide LogsAgree, TokensKept, FeedsKept, OpsFit, CursorsBounded, ReadsParked, PagesAgree;
    var (gid, i) := Target(s.core, event.token).value;
    TargetRuns(s, event.token);
    assert EntrySound(s.core.groups, event.token, s.core.tokenMap[event.token]);
    GroupDistinct(s, gid);
    forall h, j | h in s.core.groups && 0 <= j < |s.core.groups[h].items| &&
                  s.core.groups[h].items[j].token == event.token
      ensures h == gid && j == i {
      assert GroupShows(h, s.core.groups[h], s.core.tokenMap, said);
    }
  }

  /** An event for a routed token that reaches no group reaches no item. */
  lemma NotReached(s: System, t: Token, said: Said)
    requires Inv(s) && Shown(s, said) && Target(s.core, t).None? && t in s.core.tokenMap
    ensures forall h, j | h in s.core.groups && 0 <= j < |s.core.groups[h].items| ::
            s.core.groups[h].items[j].token != t
  {
    hide LogsAgree, TokensKept, FeedsKept, OpsFit, CursorsBounded, ReadsParked, PagesAgree;
    forall h, j | h in s.core.groups && 0 <= j < |s.core.groups[h].items|
      ensures s.core.groups[h].items[j].token != t {
      assert GroupShows(h, s.core.groups[h], s.core.tokenMap, said);
      assert EntrySound(s.core.groups, t, s.core.tokenMap[t]);
    }
  }

  /** A signal for a routed token is for no prospective item and for no token that was not drawn. */
  lemma RoutedIsDrawn(s: System, t: Token)
    requires Inv(s) && t in s.core.tokenMap
    ensures t <= s.core.tokenCounter
    ensures forall gid <- s.ops :: s.ops[gid].Resubscribing? ==> t !in Tokens(s.ops[gid].items)
  {
    hide LogsAgree, RoutingSound, FeedsKept, OpsFit, CursorsBounded, ReadsParked, PagesAgree, Tokens;
    forall gid <- s.ops | s.ops[gid].Resubscribing? ensures t !in Tokens(s.ops[gid].items) {
      assert Prospective(s.ops)[gid] == Tokens(s.ops[gid].items);
    }
  }

  lemma OpHeard(s: System, a: Action, op: Op, said: Said, said': Said)
    requires OpShows(op, said) && Updates(s, a, said, said') && a.Native?
    requires op.Resubscribing? ==> a.event.token !in Tokens(op.items)
    ensures OpShows(op, said')
  {
    if op.Resubscribing? {
      forall i | 0 <= i < |op.items| ensures said'(op.items[i].token, ItemStatus.Starting) {
        assert op.items[i] in op.items;
      }
    }
  }

  lemma SignalShows(s: System, a: Action, said: Said, said': Said)
    requires Inv(s) && Shown(s, said) && Updates(s, a, said, said')
    requires a.Native? && !a.event.signal.Data? && a.event.token in s.core.tokenMap
    ensures Shown(Next(s, a), said')
  {
    hide Inv, Recompute, GroupShows, OpShows, Shown, Deliver, Target;
    var t := a.event.token;
    var s' := Next(s, a);
    RoutedIsDrawn(s, t);
    forall gid <- s'.ops ensures OpShows(s'.ops[gid], said') {
      ShownAt(s, gid, said);
      OpHeard(s, a, s.ops[gid], said, said');
    }
    var target := Target(s.core, t);
    if target.Some? {
      Reached(s, a.event, said);
    } else {
      NotReached(s, t, said);
    }
    forall gid <- s'.core.groups ensures GroupShows(gid, s'.core.groups[gid], s'.core.tokenMap, said') {
      ShownAt(s, gid, said);
      if target.Some? && gid == target.value.0 {
        ReachedShows(s, a, gid, target.value.1, said, said');
      } else {
        DeafShows(s, a, gid, said, said');
      }
    }
    NeverSaid(s, a, said, said');
    AllShown(s', said');
  }

  lemma AllShown(s: System, said: Said)
    requires forall gid <- s.core.groups :: GroupShows(gid, s.core.groups[gid], s.core.tokenMap, said)
    requires forall gid <- s.ops :: OpShows(s.ops[gid], said)
    requires forall t: Token | t > s.core.tokenCounter :: said(t, ItemStatus.Starting)
    ensures Shown(s, said)
  {
  }

  lemma NeverSaid(s: System, a: Action, said: Said, said': Said)
    requires Shown(s, said) && Updates(s, a, said, said') && a.Native? && a.event.token <= s.core.tokenCounter
    ensures forall t: Token | t > s.core.tokenCounter :: said'(t, ItemStatus.Starting)
  {
    hide GroupShows, OpShows;
  }

  lemma DeafShows(s: System, a: Action, gid: GroupId, said: Said, said': Said)
    requires gid in s.core.groups && GroupShows(gid, s.core.groups[gid], s.core.tokenMap, said)
    requires Updates(s, a, said, said') && a.Native?
    requires forall j | 0 <= j < |s.core.groups[gid].items| :: s.core.groups[gid].items[j].token != a.event.token
    ensures GroupShows(gid, s.core.groups[gid], s.core.tokenMap, said')
  {
  }

  lemma ReachedShows(s: System, a: Action, gid: GroupId, i: nat, said: Said, said': Said)
    requires gid in s.core.groups && GroupShows(gid, s.core.groups[gid], s.core.tokenMap, said)
    requires Updates(s, a, said, said') && a.Native? && Hears(s, a, a.event.token)
    requires var g := s.core.groups[gid];
             && i < |g.items| && !g.status.Terminal() && g.items[i].token == a.event.token
             && forall j | 0 <= j < |g.items| && g.items[j].token == a.event.token :: j == i
    ensures GroupShows(gid, Deliver(s.core.groups[gid], i, a.event), s.core.tokenMap, said')
  {
    hide Recompute;
    var g := s.core.groups[gid];
    var g' := Deliver(g, i, a.event);
    RecomputeRuns(g'.items, g.status);
    forall j | 0 <= j < |g'.items|
      ensures && (g'.items[j].token in s.core.tokenMap ==> s.core.tokenMap[g'.items[j].token] == (gid, g'.items[j].id))
              && ItemShows(g'.status, g'.items[j], said') {
      assert g'.items[j].token == g.items[j].token && g'.items[j].id == g.items[j].id;
      if j != i {
        assert g'.items[j] == g.items[j] && ItemShows(g.status, g.items[j], said);
      }
    }
  }

  lemma DataShows(s: System, a: Action, said: Said)
    requires Inv(s) && Shown(s, said) && a.Native? && (a.event.signal.Data? || a.event.token !in s.core.tokenMap)
    ensures Shown(Next(s, a), said)
  {
    hide Inv, Shown, OpShows, Elsewhere;
    var target := Target(s.core, a.event.token);
    if target.Some? {
      var (gid, i) := target.value;
      ShownAt(s, gid, said);
      ElsewherePut(s.core.groups, gid, Deliver(s.core.groups[gid], i, a.event));
      Unchanged(s.ops, gid);
      forall h <- s.core.groups ensures GroupShows(h, s.core.groups[h], s.core.tokenMap, said) {
        ShownAt(s, h, said);
      }
      OneChanges(s, Next(s, a), gid, said);
    } else {
      SameShown(s, Next(s, a), said);
    }
  }

  lemma SameShown(s: System, s': System, said: Said)
    requires Shown(s, said) && s'.core == s.core && s'.ops == s.ops
    ensures Shown(s', said)
  {
    hide GroupShows, OpShows;
  }

  lemma NextShows(s: System, a: Action, said: Said, said': Said)
    requires Inv(s) && Shown(s, said) && Updates(s, a, said, said')
    ensures Shown(Next(s, a), said')
  {
    hide Inv, Enabled, Shown, Next, Updates;
    if a.Native? && !a.event.signal.Data? && a.event.token in s.core.tokenMap {
      SignalShows(s, a, said, said');
    } else {
      Deaf(s, a, said, said');
      if !Enabled(s, a) {
        DisabledSame(s, a);
      } else {
        match a
        case Create(_, _, _, _) => CreateShows(s, a, said');
        case CreateDone(_, _) => CreateDoneShows(s, a, said');
        case Native(_) => DataShows(s, a, said');
        case Read(_, _, _) => LookingShows(s, a, said');
        case ReadDone(_, _) => LookingShows(s, a, said');
        case Resubscribe(_, _, _, _) => ResubscribeShows(s, a, said');
        case ResubscribeDone(_, _) => CommitShows(s, a, said');
        case Restore(_) => RestoreShows(s, a, said');
        case CancelDone(_, _) => EndShows(s, a, said');
        case ExpireDone(_, _) => EndShows(s, a, said');
        case RestoreDone(_, _) => EndShows(s, a, said');
        case _ => BeginShows(s, a, said');
      }
    }
  }

  /** Nothing is heard, and nothing new is said. */
  lemma Deaf(s: System, a: Action, said: Said, said': Said)
    requires Shown(s, said) && Updates(s, a, said, said')
    requires !(a.Native? && !a.event.signal.Data? && a.event.token in s.core.tokenMap)
    ensures Shown(s, said')
  {
    forall gid <- s.core.groups ensures GroupShows(gid, s.core.groups[gid], s.core.tokenMap, said') {
      assert GroupShows(gid, s.core.groups[gid], s.core.tokenMap, said);
    }
    forall gid <- s.ops ensures OpShows(s.ops[gid], said') {
      assert OpShows(s.ops[gid], said);
    }
  }

  lemma DisabledSame(s: System, a: Action)
    requires !Enabled(s, a)
    ensures Next(s, a) == s
  {
  }

  // ------------------------------------------------------------------------ runs

  ghost function SaidIn(s: System, actions: seq<Action>): Said {
    (t: Token, status: ItemStatus) => LastSaid(s, actions, t, status)
  }

  lemma {:induction false} ItemsShow(cfg: Config, actions: seq<Action>)
    requires cfg.maxBuffered >= 1
    ensures Shown(Run(Start(cfg), actions), SaidIn(Start(cfg), actions))
  {
    hide Inv, Next, Hears, GroupShows, OpShows;
    if actions != [] {
      var init, last := actions[..|actions| - 1], actions[|actions| - 1];
      ItemsShow(cfg, init);
      Reachable(cfg, init);
      NextShows(Run(Start(cfg), init), last, SaidIn(Start(cfg), init), SaidIn(Start(cfg), actions));
    }
  }

  /**
   In every reachable state the status of an item is the last status signal its token got while it was routed, and
   STARTING before the first. The items of a cancelled group are all cancelled, those of an expired one all expired.
   */
  lemma ItemStatusIsLastSignal(cfg: Config, actions: seq<Action>, gid: GroupId, i: nat)
    requires cfg.maxBuffered >= 1 && gid in Run(Start(cfg), actions).core.groups
    requires i < |Run(Start(cfg), actions).core.groups[gid].items|
    ensures var g := Run(Start(cfg), actions).core.groups[gid];
            match g.status
            case Cancelled => g.items[i].status == ItemStatus.Cancelled
            case Expired => g.items[i].status == ItemStatus.Expired
            case _ => LastSaid(Start(cfg), actions, g.items[i].token, g.items[i].status)
  {
    hide Run, LastSaid, Shown;
    ItemsShow(cfg, actions);
    ShownAt(Run(Start(cfg), actions), gid, SaidIn(Start(cfg), actions));
  }

  /**
   A native event changes at most one item, the one that carries its token, and no other group. Data leaves its status
   alone and adds one to its sequence; a status signal changes nothing but the status.
   */
  lemma EventTouchesOneItem(cfg: Config, actions: seq<Action>, event: Event, gid: GroupId, i: nat)
    requires cfg.maxBuffered >= 1 && gid in Run(Start(cfg), actions).core.groups
    requires i < |Run(Start(cfg), actions).core.groups[gid].items|
    ensures var s := Run(Start(cfg), actions);
            var s' := Next(s, Native(event));
            && gid in s'.core.groups && |s'.core.groups[gid].items| == |s.core.groups[gid].items|
            && var g, g' := s.core.groups[gid], s'.core.groups[gid];
               && ((forall j | 0 <= j < |g.items| :: g.items[j].token != event.token) ==> g' == g)
               && (if g.items[i].token != event.token || event.token !in s.core.tokenMap then g'.items[i] == g.items[i]
                   else if event.signal.Data? then g'.items[i] == g.items[i].(sequence := g.items[i].sequence + 1)
                   else
                     && g'.items[i] == g.items[i].(status := g'.items[i].status)
                     && Says(event.signal, g'.items[i].status))
  {
    hide Run, Inv, Shown, Next, LastSaid;
    var s := Run(Start(cfg), actions);
    Reachable(cfg, actions);
    ItemsShow(cfg, actions);
    var said := SaidIn(Start(cfg), actions);
    if Target(s.core, event.token).Some? {
      Reached(s, event, said);
      NativeDelivers(s, event);
      var (h, k) := Target(s.core, event.token).value;
      DeliverTouches(s.core.groups[h], k, event);
    } else {
      NativeIgnored(s, event);
      if event.token in s.core.tokenMap {
        NotReached(s, event.token, said);
      }
    }
  }

  lemma NativeDelivers(s: System, event: Event)
    requires Target(s.core, event.token).Some?
    ensures var (gid, i) := Target(s.core, event.token).value;
            && gid in s.core.groups && i < |s.core.groups[gid].items| && event.token in s.core.tokenMap
            && Next(s, Native(event)).core.groups == s.core.groups[gid := Deliver(s.core.groups[gid], i, event)]
  {
    hide Deliver;
  }

  lemma NativeIgnored(s: System, event: Event)
    requires Target(s.core, event.token).None?
    ensures Next(s, Native(event)).core == s.core
  {
    hide Deliver, Target;
  }

  lemma DeliverTouches(g: Group, i: nat, event: Event)
    requires i < |g.items|
    ensures var items := Deliver(g, i, event).items;
            && |items| == |g.items| && (forall j | 0 <= j < |g.items| && j != i :: items[j] == g.items[j])
            && if event.signal.Data? then items[i] == g.items[i].(sequence := g.items[i].sequence + 1)
               else items[i] == g.items[i].(status := items[i].status) && Says(event.signal, items[i].status)
  {
    hide Recompute;
  }
}
