/** Runs of the registry, from its start, in which a law does not hold: one group with one topic is enough. */
module SubscriptionExamples {
  import opened Wrappers
  import opened Cursors
  import opened SubscriptionModel
  import opened SubscriptionSystem
  import opened SubscriptionOverlap
  import opened SubscriptionFeeds
  import opened SubscriptionStatus

  const CFG: Config := Config(1, 1, 0, 4, 60, 60, 60, 1)
  const WHO: string := "p"
  const SPEC: Spec := Spec("IBM", [], map[])

  function OneItem(id: ItemId, token: Token, status: ItemStatus): Item {
    Item(id, "IBM", [], map[], token, status, 0)
  }

  function OneGroup(generation: nat, status: GroupStatus, item: Item): Group {
    Group(WHO, generation, status, [item], 60, 0, generation > 1, [], 0, map[], {}, 4, LatestAndChanges)
  }

  /** The registry with this one group, and nothing stored. */
  function Holding(g: Group, tokenMap: map<Token, (GroupId, ItemId)>, pending: set<Token>, counter: nat,
                   supply: nat): Core {
    Core(map[0 := g], tokenMap, pending, counter, supply, 0, CursorStore(map[], 0))
  }

  /** After a create: group 0 with item 1 under token 1. */
  const CREATED: Core := Holding(OneGroup(1, GroupStatus.Starting, OneItem(1, 1, ItemStatus.Starting)),
                                 map[1 := (0, 1)], {}, 1, 2)

  const REPLACEMENT: Item := OneItem(2, 2, ItemStatus.Starting)

  /** After a replacement of that: item 2 under token 2, token 1 waiting to be unsubscribed. */
  const REPLACED: Core := Holding(OneGroup(2, GroupStatus.Starting, REPLACEMENT), map[2 := (0, 2)], {1}, 2, 3)

  /** After a restore of the created group began: item 1 under token 2. */
  const RESTORED: Core := Holding(OneGroup(2, GroupStatus.Starting, OneItem(1, 2, ItemStatus.Starting)),
                                  map[2 := (0, 1)], {}, 2, 2)

  function Over(c: Core, generation: nat, status: GroupStatus, item: Item,
                tokenMap: map<Token, (GroupId, ItemId)>): Core {
    c.(groups := map[0 := OneGroup(generation, status, item)], tokenMap := tokenMap)
  }

  // -------------------------------------------------------------- stretches

  lemma CreateOne()
    ensures CreateBegin(EMPTY, CFG, WHO, [SPEC], None, 0) == (CREATED, Ok(0))
    ensures Tokens(NewItems([SPEC], 0, 1)) == {1}
  {
    assert RunningGroups(EMPTY.groups, WHO) == {};
    assert Accepted([SPEC], CFG) == 1;
    var items := NewItems([SPEC], 0, 1);
    assert items == [OneItem(1, 1, ItemStatus.Starting)];
    assert [SPEC][..1] == [SPEC];
    RouteOne(map[], 1, 1);
  }

  lemma RouteOne(tokenMap: map<Token, (GroupId, ItemId)>, id: ItemId, token: Token)
    ensures Route(tokenMap, 0, [OneItem(id, token, ItemStatus.Starting)]) == tokenMap[token := (0, id)]
  {
    var items := [OneItem(id, token, ItemStatus.Starting)];
    assert items[..0] == [];
  }

  lemma ReplaceOne(c: Core)
    requires 0 in c.groups && c.groups[0].principal == WHO && !c.groups[0].status.Terminal()
    requires c.tokenCounter == 1 && c.supply == 2
    ensures ResubscribeBegin(c, CFG, WHO, 0, [SPEC], false) == (c.(tokenCounter := 2, supply := 3), Ok([REPLACEMENT]))
  {
    assert Accepted([SPEC], CFG) == 1;
    assert NewItems([SPEC], 1, 2) == [REPLACEMENT];
  }

  lemma OneToken(g: Group, id: ItemId, token: Token, status: ItemStatus)
    requires g.items == [OneItem(id, token, status)]
    ensures Tokens(g.items) == {token}
  {
  }

  lemma OneStatus(id: ItemId, token: Token, status: ItemStatus, before: GroupStatus)
    ensures Recompute([OneItem(id, token, status)], before) ==
              match status
              case Active => GroupStatus.Active
              case Starting => GroupStatus.Starting
              case Failed => GroupStatus.Failed
              case _ => before
  {
    assert Statuses([OneItem(id, token, status)]) == {status};
  }

  lemma NothingStored()
    ensures Invalidate(CursorStore(map[], 0), 0) == CursorStore(map[], 0)
  {
  }

  /** A replacement commits on a group that has one item under token 1. */
  lemma CommitOne(status: GroupStatus, itemStatus: ItemStatus, tokenMap: map<Token, (GroupId, ItemId)>)
    requires tokenMap.Keys <= {1}
    ensures ResubscribeCommit(Holding(OneGroup(1, status, OneItem(1, 1, itemStatus)), tokenMap, {}, 2, 3), 0,
                              [REPLACEMENT]) ==
              REPLACED
  {
    hide Recompute, Route, Invalidate;
    NothingStored();
    var c := Holding(OneGroup(1, status, OneItem(1, 1, itemStatus)), tokenMap, {}, 2, 3);
    OneToken(c.groups[0], 1, 1, itemStatus);
    OneStatus(2, 2, ItemStatus.Starting, GroupStatus.Starting);
    assert tokenMap - {1} == map[];
    RouteOne(map[], 2, 2);
    assert map[][2 := (0, 2)] == map[2 := (0, 2)];
  }

  lemma CancelOne(c: Core, generation: nat, status: GroupStatus, id: ItemId, token: Token, itemStatus: ItemStatus,
                  tokens: set<Token>)
    requires c == Holding(OneGroup(generation, status, OneItem(id, token, itemStatus)), c.tokenMap, c.pending,
                          c.tokenCounter, c.supply)
    ensures CancelFinish(c, 0, tokens, true) ==
              Over(c, generation, GroupStatus.Cancelled, OneItem(id, token, ItemStatus.Cancelled), c.tokenMap - tokens)
    ensures ExpireFinish(c, 0, tokens, true) ==
              Over(c, generation, GroupStatus.Expired, OneItem(id, token, ItemStatus.Expired), c.tokenMap - tokens)
  {
    hide Invalidate;
    NothingStored();
    var item := OneItem(id, token, itemStatus);
    assert WithStatus([item], ItemStatus.Cancelled) == [OneItem(id, token, ItemStatus.Cancelled)];
    assert WithStatus([item], ItemStatus.Expired) == [OneItem(id, token, ItemStatus.Expired)];
  }

  /** A restore of the created group begins. */
  lemma RestoreOne()
    ensures RestoreBegin(CREATED, 0) == RESTORED
  {
    hide Route, Invalidate;
    NothingStored();
    OneToken(CREATED.groups[0], 1, 1, ItemStatus.Starting);
    assert Renewed(CREATED.groups[0].items, 1) == [OneItem(1, 2, ItemStatus.Starting)];
    assert CREATED.tokenMap - {1} == map[];
    RouteOne(map[], 1, 2);
    assert map[][2 := (0, 1)] == map[2 := (0, 1)];
  }

  // ------------------------------------------------- overlapping operations

  function Opening(): seq<Move> {
    [BeginCreate(0, WHO, [SPEC], None, 0), Finish(0, true)]
  }

  const OPENED: Overlapping := Overlapping(CFG, CREATED, map[])

  lemma Opens()
    ensures MakeAll(Idle(CFG), Opening()) == OPENED
  {
    hide CreateBegin, NewItems, Tokens;
    CreateOne();
    var begin := BeginCreate(0, WHO, [SPEC], None, 0);
    var s := Overlapping(CFG, CREATED, map[0 := Flight(0, Creating({1}, false))]);
    assert Make(Idle(CFG), begin) == s;
    assert Make(s, Finish(0, true)) == OPENED;
    MakeSnoc(Idle(CFG), [], begin);
    MakeSnoc(Idle(CFG), [begin], Finish(0, true));
    assert [] + [begin] == [begin];
    assert [begin] + [Finish(0, true)] == Opening();
  }

  lemma MakeSnoc(s: Overlapping, moves: seq<Move>, m: Move)
    ensures MakeAll(s, moves + [m]) == Make(MakeAll(s, moves), m)
  {
    hide Make;
    assert (moves + [m])[..|moves|] == moves;
  }

  /** The state before the last of four moves after the opening, and the one after it. */
  lemma FourMoves(a: Move, b: Move, c: Move, d: Move)
    ensures var s := Make(Make(Make(OPENED, a), b), c);
            MakeAll(Idle(CFG), Opening() + [a, b, c]) == s && MakeAll(Idle(CFG), Opening() + [a, b, c, d]) == Make(s, d)
  {
    hide Make, MakeAll;
    Opens();
    MakeSnoc(Idle(CFG), Opening(), a);
    MakeSnoc(Idle(CFG), Opening() + [a], b);
    MakeSnoc(Idle(CFG), Opening() + [a, b], c);
    MakeSnoc(Idle(CFG), Opening() + [a, b, c], d);
    assert Opening() + [a] + [b] == Opening() + [a, b];
    assert Opening() + [a, b] + [c] == Opening() + [a, b, c];
    assert Opening() + [a, b, c] + [d] == Opening() + [a, b, c, d];
  }

  const REPLACE: Move := BeginResubscribe(1, WHO, 0, [SPEC], false)
  const CANCEL: Move := BeginCancel(2, WHO, 0, false)
  const EXPIRE: Move := BeginExpire(3, 0, 60)
  const RESTORE: Move := BeginRestore(4, 0)

  lemma Replacing(s: Overlapping)
    requires s.cfg == CFG && 1 !in s.flights && !BeingCreated(s.flights, 0)
    requires 0 in s.core.groups && s.core.groups[0].principal == WHO && !s.core.groups[0].status.Terminal()
    requires s.core.tokenCounter == 1 && s.core.supply == 2
    ensures Make(s, REPLACE) ==
              Overlapping(CFG, s.core.(tokenCounter := 2, supply := 3),
                          s.flights[1 := Flight(0, Op.Resubscribing([REPLACEMENT], false))])
  {
    hide ResubscribeBegin;
    ReplaceOne(s.core);
  }

  lemma Cancelling1(s: Overlapping, generation: nat, status: GroupStatus, id: ItemId, token: Token,
                    itemStatus: ItemStatus)
    requires 2 !in s.flights && !BeingCreated(s.flights, 0) && !status.Cancelled?
    requires 0 in s.core.groups && s.core.groups[0] == OneGroup(generation, status, OneItem(id, token, itemStatus))
    ensures Make(s, CANCEL) == s.(flights := s.flights[2 := Flight(0, Op.Cancelling({token}))])
  {
    OneToken(s.core.groups[0], id, token, itemStatus);
  }

  lemma Expiring1(s: Overlapping)
    requires 3 !in s.flights && !BeingCreated(s.flights, 0) && s.core == CREATED
    ensures Make(s, EXPIRE) == s.(flights := s.flights[3 := Flight(0, Expiring({1}))])
  {
    OneToken(s.core.groups[0], 1, 1, ItemStatus.Starting);
  }

  /**
   A finish takes the group from one status to another and breaks a law; these tokens are routed to the group then.
   */
  ghost predicate Breaks(s: Overlapping, s': Overlapping, before: GroupStatus, after: GroupStatus, routed: set<Token>) {
    && 0 in s.core.groups && s.core.groups[0].status == before
    && 0 in s'.core.groups && s'.core.groups[0].status == after
    && RoutedTo(s'.core, 0) == routed && !Kept(s.core, s'.core)
  }

  lemma Ends(core: Core, rest: map<FlightId, Flight>, f: FlightId, ok: bool, op: Op, core': Core)
    requires f !in rest && 0 in core.groups && Finished(core, Flight(0, op), ok) == core'
    ensures Make(Overlapping(CFG, core, rest[f := Flight(0, op)]), Finish(f, ok)) == Overlapping(CFG, core', rest)
  {
    hide Finished, Benign;
    assert rest[f := Flight(0, op)] - {f} == rest;
  }

  /** Popping one token, and what a routing of at most one token amounts to. */
  lemma Pops(c: Core)
    ensures c.tokenMap == map[1 := (0, 1)] ==> c.tokenMap - {1} == map[]
    ensures c.tokenMap == map[2 := (0, 1)] ==> c.tokenMap - {2} == map[]
    ensures c.tokenMap == map[] ==> c.tokenMap - {1} == map[] && c.tokenMap - {2} == map[]
    ensures c.tokenMap == map[] ==> RoutedTo(c, 0) == {}
    ensures c.tokenMap == map[2 := (0, 2)] ==> RoutedTo(c, 0) == {2} && c.tokenMap - {1} == c.tokenMap
  {
  }

  /** What decides that a law is broken: the group is no longer what it was for ever, or is over and still routed. */
  lemma BrokenBy(c: Core, c': Core)
    requires 0 in c.groups && 0 in c'.groups
    requires
      || (c.groups[0].status.Terminal() && !c'.groups[0].status.Terminal())
      || (c.groups[0].status.Cancelled? && !c'.groups[0].status.Cancelled?)
      || (c'.groups[0].status.Terminal() && RoutedTo(c', 0) != {})
    ensures !Kept(c, c')
  {
    if c'.groups[0].status.Terminal() && RoutedTo(c', 0) != {} {
      var t :| t in RoutedTo(c', 0);
      if Kept(c, c') {
        OverIsUnrouted(c', 0, t);
      }
    }
  }

  const RESUBSCRIBING: Op := Op.Resubscribing([REPLACEMENT], false)
  const CANCELLING: Op := Op.Cancelling({1})
  const EXPIRING: Op := Expiring({1})
  const DRAWN: Core := CREATED.(tokenCounter := 2, supply := 3)

  const ITEM_CANCELLED: Item := OneItem(1, 1, ItemStatus.Cancelled)

  /** A cancel that lands inside a replacement is undone when the replacement commits. */
  lemma CancelInsideReplacement()
    ensures Breaks(MakeAll(Idle(CFG), Opening() + [REPLACE, CANCEL, Finish(2, true)]),
                   MakeAll(Idle(CFG), Opening() + [REPLACE, CANCEL, Finish(2, true), Finish(1, true)]),
                   GroupStatus.Cancelled, GroupStatus.Starting, {2})
  {
    hide Make, MakeAll, Kept, CancelFinish, ResubscribeCommit;
    FourMoves(REPLACE, CANCEL, Finish(2, true), Finish(1, true));
    var flights := map[1 := Flight(0, RESUBSCRIBING)];
    Replacing(OPENED);
    Cancelling1(Overlapping(CFG, DRAWN, flights), 1, GroupStatus.Starting, 1, 1, ItemStatus.Starting);
    var cancelled := Over(DRAWN, 1, GroupStatus.Cancelled, ITEM_CANCELLED, map[]);
    Pops(DRAWN);
    CancelOne(DRAWN, 1, GroupStatus.Starting, 1, 1, ItemStatus.Starting, {1});
    Ends(DRAWN, flights, 2, true, CANCELLING, cancelled);
    CommitOne(GroupStatus.Cancelled, ItemStatus.Cancelled, map[]);
    Ends(cancelled, map[], 1, true, RESUBSCRIBING, REPLACED);
    Pops(cancelled);
    Pops(REPLACED);
    BrokenBy(cancelled, REPLACED);
  }

  /**
   An expiry that lands on a replacement leaves its token routed to a group that is over; the next event revives it.
   */
  lemma ReplacementInsideExpiry()
    ensures var moves := Opening() + [EXPIRE, REPLACE, Finish(1, true), Finish(3, true)];
            && Breaks(MakeAll(Idle(CFG), Opening() + [EXPIRE, REPLACE, Finish(1, true)]), MakeAll(Idle(CFG), moves),
                      GroupStatus.Starting, GroupStatus.Expired, {2})
            && Breaks(MakeAll(Idle(CFG), moves), MakeAll(Idle(CFG), moves + [Arrive(Event(2, Started, "", "", map[]))]),
                      GroupStatus.Expired, GroupStatus.Active, {2})
  {
    hide Make, MakeAll, Kept, ExpireFinish, ResubscribeCommit;
    FourMoves(EXPIRE, REPLACE, Finish(1, true), Finish(3, true));
    var flights := map[3 := Flight(0, EXPIRING)];
    Expiring1(OPENED);
    Replacing(Overlapping(CFG, CREATED, flights));
    CommitOne(GroupStatus.Starting, ItemStatus.Starting, CREATED.tokenMap);
    Ends(DRAWN, flights, 1, true, RESUBSCRIBING, REPLACED);
    var expired := Over(REPLACED, 2, GroupStatus.Expired, OneItem(2, 2, ItemStatus.Expired), map[2 := (0, 2)]);
    Pops(REPLACED);
    CancelOne(REPLACED, 2, GroupStatus.Starting, 2, 2, ItemStatus.Starting, {1});
    Ends(REPLACED, map[], 3, true, EXPIRING, expired);
    Pops(REPLACED);
    Pops(expired);
    BrokenBy(REPLACED, expired);
    var event := Event(2, Started, "", "", map[]);
    MakeSnoc(Idle(CFG), Opening() + [EXPIRE, REPLACE, Finish(1, true), Finish(3, true)], Arrive(event));
    Revives(expired, event);
    Pops(expired);
    Pops(HandleEvent(expired, event));
    BrokenBy(expired, HandleEvent(expired, event));
    Arrives(Overlapping(CFG, expired, map[]), event);
  }

  lemma Arrives(s: Overlapping, event: Event)
    ensures Make(s, Arrive(event)) == s.(core := HandleEvent(s.core, event))
  {
    hide HandleEvent;
  }

  lemma Revives(c: Core, event: Event)
    requires c == Over(REPLACED, 2, GroupStatus.Expired, OneItem(2, 2, ItemStatus.Expired), map[2 := (0, 2)])
    requires event.token == 2 && event.signal.Started?
    ensures var c' := HandleEvent(c, event);
            0 in c'.groups && c'.groups[0].status == GroupStatus.Active && c'.tokenMap == c.tokenMap
  {
    OneStatus(2, 2, ItemStatus.Active, GroupStatus.Expired);
    assert c.groups[0].items[0 := OneItem(2, 2, ItemStatus.Active)] == [OneItem(2, 2, ItemStatus.Active)];
  }

  /** A replacement that commits inside a cancel stays routed. */
  lemma ReplacementInsideCancel()
    ensures Breaks(MakeAll(Idle(CFG), Opening() + [CANCEL, REPLACE, Finish(1, true)]),
                   MakeAll(Idle(CFG), Opening() + [CANCEL, REPLACE, Finish(1, true), Finish(2, true)]),
                   GroupStatus.Starting, GroupStatus.Cancelled, {2})
  {
    hide Make, MakeAll, Kept, CancelFinish, ResubscribeCommit;
    FourMoves(CANCEL, REPLACE, Finish(1, true), Finish(2, true));
    var flights := map[2 := Flight(0, CANCELLING)];
    Cancelling1(OPENED, 1, GroupStatus.Starting, 1, 1, ItemStatus.Starting);
    Replacing(Overlapping(CFG, CREATED, flights));
    CommitOne(GroupStatus.Starting, ItemStatus.Starting, CREATED.tokenMap);
    Ends(DRAWN, flights, 1, true, RESUBSCRIBING, REPLACED);
    var cancelled := Over(REPLACED, 2, GroupStatus.Cancelled, OneItem(2, 2, ItemStatus.Cancelled), map[2 := (0, 2)]);
    Pops(REPLACED);
    CancelOne(REPLACED, 2, GroupStatus.Starting, 2, 2, ItemStatus.Starting, {1});
    Ends(REPLACED, map[], 2, true, CANCELLING, cancelled);
    Pops(REPLACED);
    Pops(cancelled);
    BrokenBy(REPLACED, cancelled);
  }

  /** A cancel that lands inside an expiry is relabelled EXPIRED. */
  lemma CancelInsideExpiry()
    ensures Breaks(MakeAll(Idle(CFG), Opening() + [EXPIRE, CANCEL, Finish(2, true)]),
                   MakeAll(Idle(CFG), Opening() + [EXPIRE, CANCEL, Finish(2, true), Finish(3, true)]),
                   GroupStatus.Cancelled, GroupStatus.Expired, {})
  {
    hide Make, MakeAll, Kept, CancelFinish, ExpireFinish;
    FourMoves(EXPIRE, CANCEL, Finish(2, true), Finish(3, true));
    var flights := map[3 := Flight(0, EXPIRING)];
    Expiring1(OPENED);
    Cancelling1(Overlapping(CFG, CREATED, flights), 1, GroupStatus.Starting, 1, 1, ItemStatus.Starting);
    var cancelled := Over(CREATED, 1, GroupStatus.Cancelled, ITEM_CANCELLED, map[]);
    Pops(CREATED);
    CancelOne(CREATED, 1, GroupStatus.Starting, 1, 1, ItemStatus.Starting, {1});
    Ends(CREATED, flights, 2, true, CANCELLING, cancelled);
    var expired := Over(CREATED, 1, GroupStatus.Expired, OneItem(1, 1, ItemStatus.Expired), map[]);
    Pops(cancelled);
    CancelOne(cancelled, 1, GroupStatus.Cancelled, 1, 1, ItemStatus.Cancelled, {1});
    Ends(cancelled, map[], 3, true, EXPIRING, expired);
    Pops(cancelled);
    Pops(expired);
    BrokenBy(cancelled, expired);
  }

  /** A cancel that lands inside a restore is relabelled FAILED when the restore fails. */
  lemma CancelInsideRestore()
    ensures Breaks(MakeAll(Idle(CFG), Opening() + [RESTORE, CANCEL, Finish(2, true)]),
                   MakeAll(Idle(CFG), Opening() + [RESTORE, CANCEL, Finish(2, true), Finish(4, false)]),
                   GroupStatus.Cancelled, GroupStatus.Failed, {})
  {
    hide Make, MakeAll, Kept, CancelFinish, RestoreBegin;
    FourMoves(RESTORE, CANCEL, Finish(2, true), Finish(4, false));
    var restored := RESTORED;
    var flights := map[4 := Flight(0, Restoring({2}, false))];
    Restoring1();
    Cancelling1(Overlapping(CFG, restored, flights), 2, GroupStatus.Starting, 1, 2, ItemStatus.Starting);
    var cancelled := Over(restored, 2, GroupStatus.Cancelled, OneItem(1, 2, ItemStatus.Cancelled), map[]);
    Pops(restored);
    CancelOne(restored, 2, GroupStatus.Starting, 1, 2, ItemStatus.Starting, {2});
    Ends(restored, flights, 2, true, Op.Cancelling({2}), cancelled);
    var failed := RestoreAbort(cancelled, 0, {2});
    Ends(cancelled, map[], 4, false, Restoring({2}, false), failed);
    Pops(cancelled);
    Pops(failed);
    BrokenBy(cancelled, failed);
  }

  lemma Restoring1()
    ensures Make(OPENED, RESTORE) ==
              Overlapping(CFG, RESTORED, map[4 := Flight(0, Restoring({2}, false))])
  {
    hide RestoreBegin;
    RestoreOne();
    OneToken(RestoreBegin(CREATED, 0).groups[0], 1, 2, ItemStatus.Starting);
  }

  // ------------------------------------------------- one operation at a time

  const CREATE: Action := Create(WHO, [SPEC], None, 0)

  const CREATING: System := System(CFG, CREATED, map[0 := Creating({1}, false)], map[], {}, map[(0, 1) := []], map[],
                                   [])

  lemma Creates()
    ensures Next(Start(CFG), CREATE) == CREATING
  {
    hide CreateBegin, NewItems, Tokens;
    CreateOne();
  }

  /** A create that is refused after the library took the feed: nothing in the registry knows the feed any more. */
  lemma FeedLost()
    ensures var s := Run(Start(CFG), [CREATE, CreateDone(0, Raised({1}, false))]);
            s.live == {1} && s.core.groups == map[] && s.core.tokenMap == map[] && s.core.pending == {}
              && s.ops == map[]
            && !Conserved(s)
  {
    hide Run, Next;
    var done := CreateDone(0, Raised({1}, false));
    Creates();
    var none: seq<Action> := [];
    RunSnoc(Start(CFG), none, CREATE);
    RunSnoc(Start(CFG), [CREATE], done);
    assert none + [CREATE] == [CREATE] && [CREATE] + [done] == [CREATE, done];
    RunStart(none);
    assert none[..0] == none;
    CreateRefused();
    Lost(Next(CREATING, done));
  }

  lemma CreateRefused()
    ensures var s := Next(CREATING, CreateDone(0, Raised({1}, false)));
            s.live == {1} && s.core.groups == map[] && s.core.tokenMap == map[] && s.core.pending == {}
              && s.ops == map[]
  {
  }

  lemma Lost(s: System)
    requires s.live == {1} && s.core.tokenMap == map[] && s.core.pending == {} && s.ops == map[]
    ensures !Conserved(s)
  {
    assert 1 in s.live;
    assert Prospective(s.ops) == map[];
  }

  /** A restore that raises after its item has started leaves a FAILED group whose item is active. */
  lemma ActiveButFailed()
    ensures var s := Run(Start(CFG), [CREATE, Accept(0), CreateDone(0, Succeeded), Restore(0),
                                      Native(Event(2, Started, "", "", map[])), RestoreDone(0, Raised({}, false))]);
            && 0 in s.core.groups && s.core.groups[0].status.Failed?
            && s.core.groups[0].items == [OneItem(1, 2, ItemStatus.Active)] && !AllShow(ItemsShow, s.core.groups)
  {
    hide Run, Next;
    var event := Event(2, Started, "", "", map[]);
    var actions := [CREATE, Accept(0), CreateDone(0, Succeeded), Restore(0), Native(event),
                    RestoreDone(0, Raised({}, false))];
    Creates();
    RunIsSix(actions);
    Restores();
    Starts2(event);
    RestoreFails();
  }

  const LIVE: System := CREATING.(ops := map[], live := {1})

  lemma Restores()
    ensures Next(Next(Next(CREATING, Accept(0)), CreateDone(0, Succeeded)), Restore(0)) == RESTORING
  {
    hide RestoreBegin, Tokens;
    Accepts();
    RestoreOne();
    OneToken(RESTORING.core.groups[0], 1, 2, ItemStatus.Starting);
  }

  lemma Accepts()
    ensures Next(Next(CREATING, Accept(0)), CreateDone(0, Succeeded)) == LIVE
  {
    var accepted := CREATING.(ops := map[0 := Creating({1}, true)], live := {1});
    assert Next(CREATING, Accept(0)) == accepted;
    assert Next(accepted, CreateDone(0, Succeeded)) == LIVE;
  }

  const RESTORING: System :=
    LIVE.(core := RESTORED, ops := map[0 := Restoring({2}, false)], logs := map[(0, 1) := [], (0, 2) := []])

  const STARTED: System :=
    RESTORING.(core := Over(RESTORED, 2, GroupStatus.Active, OneItem(1, 2, ItemStatus.Active), RESTORED.tokenMap))

  lemma Starts2(event: Event)
    requires event == Event(2, Started, "", "", map[])
    ensures Next(RESTORING, Native(event)) == STARTED
  {
    hide Recompute, Next;
    OneStatus(1, 2, ItemStatus.Active, GroupStatus.Starting);
    Hears(RESTORING, 2, GroupStatus.Starting, 1, 2, ItemStatus.Starting, event, ItemStatus.Active);
  }

  /** One item hears of a change of its status. */
  lemma Hears(s: System, generation: nat, before: GroupStatus, id: ItemId, token: Token, itemStatus: ItemStatus,
              event: Event, after: ItemStatus)
    requires s.core.groups == map[0 := OneGroup(generation, before, OneItem(id, token, itemStatus))]
    requires s.core.tokenMap == map[token := (0, id)] && event.token == token
    requires (event.signal.Started? && after.Active?) || (event.signal.Unsubscribed? && after.Cancelled?)
    ensures var items := [OneItem(id, token, after)];
            Next(s, Native(event)) ==
              s.(core := s.core.(groups := map[0 := OneGroup(generation, Recompute(items, before), items[0])]))
  {
    hide Recompute;
    var g := s.core.groups[0];
    var g' := OneGroup(generation, Recompute([OneItem(id, token, after)], before), OneItem(id, token, after));
    assert g.items[0 := OneItem(id, token, after)] == [OneItem(id, token, after)];
    assert Deliver(g, 0, event) == g';
    assert s.core.groups[0 := g'] == map[0 := g'];
  }

  /** The only item ends, and the group stays ACTIVE. */
  lemma ActiveWithoutItems()
    ensures var s := Run(Start(CFG), [CREATE, Accept(0), CreateDone(0, Succeeded),
                                      Native(Event(1, Started, "", "", map[])),
                                      Native(Event(1, Unsubscribed, "", "", map[]))]);
            && 0 in s.core.groups && s.core.groups[0].status.Active?
            && s.core.groups[0].items == [OneItem(1, 1, ItemStatus.Cancelled)] && !AllShow(StatusIsTrue, s.core.groups)
  {
    hide Run, Next, Recompute;
    var first, second := Event(1, Started, "", "", map[]), Event(1, Unsubscribed, "", "", map[]);
    var actions := [CREATE, Accept(0), CreateDone(0, Succeeded), Native(first), Native(second)];
    RunIsFive(actions);
    Creates();
    Accepts();
    OneStatus(1, 1, ItemStatus.Active, GroupStatus.Starting);
    OneStatus(1, 1, ItemStatus.Cancelled, GroupStatus.Active);
    Hears(LIVE, 1, GroupStatus.Starting, 1, 1, ItemStatus.Starting, first, ItemStatus.Active);
    var active := LIVE.core.(groups := map[0 := OneGroup(1, GroupStatus.Active, OneItem(1, 1, ItemStatus.Active))]);
    Hears(LIVE.(core := active), 1, GroupStatus.Active, 1, 1, ItemStatus.Active, second, ItemStatus.Cancelled);
    Untrue(OneGroup(1, GroupStatus.Active, OneItem(1, 1, ItemStatus.Cancelled)));
  }

  lemma Untrue(g: Group)
    requires g == OneGroup(1, GroupStatus.Active, OneItem(1, 1, ItemStatus.Cancelled))
    ensures !Shows(StatusIsTrue, g)
  {
    assert !g.items[0].status.Active?;
  }

  lemma RestoreFails()
    ensures var s := Next(STARTED, RestoreDone(0, Raised({}, false)));
            && 0 in s.core.groups && s.core.groups[0].status.Failed?
            && s.core.groups[0].items == [OneItem(1, 2, ItemStatus.Active)] && !AllShow(ItemsShow, s.core.groups)
  {
    var g := STARTED.core.groups[0].(status := GroupStatus.Failed);
    assert g.items[0].status.Active?;
    assert !Shows(ItemsShow, g);
  }

  lemma RunIsFive(a: seq<Action>)
    requires |a| == 5
    ensures Run(Start(CFG), a) == Next(Next(Next(Next(Next(Start(CFG), a[0]), a[1]), a[2]), a[3]), a[4])
  {
    hide Next, Run;
    RunStart(a);
    RunStep(a, 0);
    RunStep(a, 1);
    RunStep(a, 2);
    RunStep(a, 3);
    RunStep(a, 4);
    assert a[..5] == a;
  }

  lemma RunIsSix(a: seq<Action>)
    requires |a| == 6
    ensures Run(Start(CFG), a) == Next(Next(Next(Next(Next(Next(Start(CFG), a[0]), a[1]), a[2]), a[3]), a[4]), a[5])
  {
    hide Next, Run;
    RunIsFive(a[..5]);
    RunStep(a, 5);
    assert a[..6] == a;
  }

  lemma RunStart(a: seq<Action>)
    ensures Run(Start(CFG), a[..0]) == Start(CFG)
  {
    assert a[..0] == [];
  }

  // ------------------------------------------ a read that spans a replacement

  function FirstCursor(id: CursorId, now: int): Cursor {
    Cursor(id, 0, 1, 0, Some(WHO), Some(now + 60))
  }

  const ASK: ReadRequest := ReadRequest(WHO, 0, None, ReadMode.Changes, None, 10, false, false)
  const WAIT: ReadRequest := ReadRequest(WHO, 0, None, ReadMode.Changes, Some(0), 10, true, false)

  const STORE: CursorStore := CursorStore(map[0 := FirstCursor(0, 0)], 1)

  const PAGE: Served := Served(Position(None, 0), 0, 4, Reply(0, 1, [], 0, 0, false), 0)

  const SERVED: System :=
    System(CFG, CREATED.(cursors := STORE), map[], map[], {1}, map[(0, 1) := []], map[0 := FirstCursor(0, 0)], [PAGE])

  const HERE: Position := Position(Some(FirstCursor(0, 0)), 0)

  function Waiting(g: Group): Group {
    g.(waiters := {5})
  }

  const PARKED: System :=
    SERVED.(core := SERVED.core.(groups := map[0 := Waiting(CREATED.groups[0])], longPolls := 1),
            parked := map[5 := Parked(0, HERE, 10, WHO)])

  const SWAPPED: System :=
    PARKED.(core := REPLACED.(groups := map[0 := Waiting(REPLACED.groups[0])], longPolls := 1,
                              cursors := CursorStore(map[], 1)),
            live := {1, 2}, logs := map[(0, 1) := [], (0, 2) := []])

  lemma Serves()
    ensures Next(Next(Next(CREATING, Accept(0)), CreateDone(0, Succeeded)), Read(ASK, 4, 0)) == SERVED
  {
    hide Next;
    Accepts();
    ServesOne(LIVE);
  }

  lemma ServesOne(s: System)
    requires s == LIVE
    ensures Next(s, Read(ASK, 4, 0)) == SERVED
  {
    InsertOne(0, CursorStore(map[], 0), 0);
    assert ReadError(s.core, ASK).None?;
  }

  lemma InsertOne(id: CursorId, store: CursorStore, now: int)
    requires store == CursorStore(map[], id)
    ensures Insert(store, FirstCursor(id, now), now) == CursorStore(map[id := FirstCursor(id, now)], id + 1)
  {
    var entries := store.entries[id := FirstCursor(id, now)];
    assert |entries| == 1;
    assert MAX_CURSORS == 10_000;
  }

  lemma Parks()
    ensures Next(SERVED, Read(WAIT, 5, 0)) == PARKED
  {
    var g := CREATED.groups[0];
    assert CursorAccepted(SERVED.core, WAIT, 0, 0);
    assert ReadError(SERVED.core, WAIT).None?;
    assert AfterResolve(STORE, 0, WHO, 0) == STORE;
    assert g.(waiters := g.waiters + {5}) == Waiting(g);
    assert SERVED.core.groups[0 := Waiting(g)] == map[0 := Waiting(g)];
    assert ReadBegin(SERVED.core, CFG, WAIT, 5, 0) == (PARKED.core, MustWait(HERE));
  }

  const ASKED: System :=
    PARKED.(core := PARKED.core.(tokenCounter := 2, supply := 3),
            ops := map[0 := Op.Resubscribing([REPLACEMENT], true)], live := {1, 2})

  lemma Swaps()
    ensures Next(Next(PARKED, Resubscribe(WHO, 0, [SPEC], false)), Accept(0)) == ASKED
    ensures Next(ASKED, ResubscribeDone(0, Succeeded)) == SWAPPED
  {
    Asks();
    SwapCommits();
    assert ASKED.logs[(0, 2) := []] == SWAPPED.logs;
    assert ASKED.ops - {0} == map[];
  }

  lemma Asks()
    ensures Next(Next(PARKED, Resubscribe(WHO, 0, [SPEC], false)), Accept(0)) == ASKED
  {
    hide ResubscribeBegin, Tokens;
    ReplaceOne(PARKED.core);
    var asking := ASKED.(ops := map[0 := Op.Resubscribing([REPLACEMENT], false)], live := {1});
    assert Next(PARKED, Resubscribe(WHO, 0, [SPEC], false)) == asking;
    assert Tokens([REPLACEMENT]) == {2} by {
      OneToken(REPLACED.groups[0], 2, 2, ItemStatus.Starting);
    }
  }

  lemma SwapCommits()
    ensures ResubscribeCommit(ASKED.core, 0, [REPLACEMENT]) == SWAPPED.core
  {
    hide Recompute, Route, Tokens;
    OneToken(CREATED.groups[0], 1, 1, ItemStatus.Starting);
    OneStatus(2, 2, ItemStatus.Starting, GroupStatus.Starting);
    RouteOne(map[], 2, 2);
    Pops(CREATED);
    assert Invalidate(STORE, 0) == CursorStore(map[], 1);
  }

  const SPANNING: seq<Action> :=
    [CREATE, Accept(0), CreateDone(0, Succeeded), Read(ASK, 4, 0), Read(WAIT, 5, 0),
     Resubscribe(WHO, 0, [SPEC], false), Accept(0), ResubscribeDone(0, Succeeded), ReadDone(5, 1)]

  /** The cursor the long poll is handed is stored, and is refused to everybody. */
  lemma ReadSpansReplacement(request: ReadRequest, now: int)
    requires request.subscription == 0 && request.mode.Changes? && request.cursor == Some(1)
    ensures var s := Run(Start(CFG), SPANNING);
            && |s.pages| == 2 && s.pages[1].reply.cursor == 1 && s.pages[1].reply.generation == 2
            && 1 in s.core.cursors.entries && s.core.cursors.entries[1] == FirstCursor(1, 1)
            && (s.core.groups.Keys == {0} && |s.core.groups[0].buffer| <= s.core.groups[0].total)
            && ReadBegin(s.core, s.cfg, request, 6, now).1.Refused?
            && (request.principal == WHO && request.generation.None? ==>
                  ReadBegin(s.core, s.cfg, request, 6, now).1 == Refused(CURSOR_INVALID))
  {
    hide Run, Next;
    Spans();
    Resumes();
    CursorRefused(Next(SWAPPED, ReadDone(5, 1)), request, now);
  }

  lemma Spans()
    ensures Run(Start(CFG), SPANNING) == Next(SWAPPED, ReadDone(5, 1))
  {
    hide Next;
    Creates();
    Serves();
    Parks();
    Swaps();
    RunIs(SPANNING);
  }

  /** Nine steps, one after the other. */
  lemma RunIs(a: seq<Action>)
    requires |a| == 9
    ensures Run(Start(CFG), a) ==
              Next(Next(Next(Next(Next(Next(Next(Next(Next(Start(CFG), a[0]), a[1]), a[2]), a[3]), a[4]), a[5]), a[6]),
                        a[7]), a[8])
  {
    hide Next;
    hide Run;
    RunIsSix(a[..6]);
    RunStep(a, 6);
    RunStep(a, 7);
    RunStep(a, 8);
    assert a[..9] == a;
  }

  lemma RunStep(a: seq<Action>, n: nat)
    requires n < |a|
    ensures Run(Start(CFG), a[..n + 1]) == Next(Run(Start(CFG), a[..n]), a[n])
  {
    hide Next;
    assert a[..n + 1][..n] == a[..n];
  }

  lemma Resumes()
    ensures var s := Next(SWAPPED, ReadDone(5, 1));
            && s.cfg == CFG && |s.pages| == 2 && s.pages[1].reply.cursor == 1 && s.pages[1].reply.generation == 2
            && s.core.cursors == CursorStore(map[1 := FirstCursor(1, 1)], 2)
            && s.core.groups == map[0 := REPLACED.groups[0]]
  {
    hide ReadFinish, Successor, NextOffset;
    ResumedCore();
  }

  lemma ResumedCore()
    ensures var (core, reply) := ReadFinish(SWAPPED.core, CFG, 0, HERE, 10, WHO, 5, 1);
            && core.cursors == CursorStore(map[1 := FirstCursor(1, 1)], 2)
               && core.groups == map[0 := REPLACED.groups[0]]
            && reply.cursor == 1 && reply.generation == 2
  {
    var g := SWAPPED.core.groups[0];
    var store := CursorStore(map[], 1);
    assert g.(waiters := g.waiters - {5}) == REPLACED.groups[0];
    assert PageFrom(REPLACED.groups[0], 0, 10) == [];
    SuccessorIs(SWAPPED.core.(longPolls := 0, groups := SWAPPED.core.groups[0 := REPLACED.groups[0]]), store);
  }

  lemma SuccessorIs(c: Core, store: CursorStore)
    requires 0 in c.groups && c.cursors == store == CursorStore(map[], 1)
    ensures Successor(c, CFG, 0, HERE, 0, WHO, 1) == (FirstCursor(1, 1), CursorStore(map[1 := FirstCursor(1, 1)], 2))
  {
    hide Insert;
    assert Forget(store, 0) == store;
    InsertOne(1, store, 1);
  }

  lemma CursorRefused(s: System, request: ReadRequest, now: int)
    requires s.core.cursors == CursorStore(map[1 := FirstCursor(1, 1)], 2)
             && s.core.groups == map[0 := REPLACED.groups[0]]
    requires request.subscription == 0 && request.mode.Changes? && request.cursor == Some(1)
    ensures ReadBegin(s.core, s.cfg, request, 6, now).1.Refused?
    ensures request.principal == WHO && request.generation.None? ==>
              ReadBegin(s.core, s.cfg, request, 6, now).1 == Refused(CURSOR_INVALID)
  {
    assert !CursorAccepted(s.core, request, 1, now);
  }
}
