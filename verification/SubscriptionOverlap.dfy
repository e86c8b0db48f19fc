/**
 The registry without the rule that one replacing operation per group is in flight at a time.

 Nothing in the source enforces that rule: restore runs on session events, expiry from the cleanup
 sweep, and cancel and resubscribe from tools, none under a lock. Here any number of them may be
 between their two stretches, on one group as well as on several; only a group whose create has not
 returned is left alone, as in SubscriptionSystem. The two laws that overlap can break are that
 routing is sound and that a terminal group stays as it is, and the theorem is exact: a run keeps
 both throughout if and only if each operation that finishes in it is benign, which is a test on the
 group as it is at that moment.
 */
module SubscriptionOverlap {
  import opened Wrappers
  import opened Cursors
  import opened SubscriptionModel
  import opened SubscriptionSystem
  import opened SubscriptionLedger
  import opened SubscriptionFrames
  import opened SubscriptionSafety

  type FlightId = nat

  /** An operation between its two stretches. */
  datatype Flight = Flight(gid: GroupId, op: Op)

  datatype Overlapping = Overlapping(cfg: Config, core: Core, flights: map<FlightId, Flight>)

  datatype Move =
    | BeginCreate(f: FlightId, principal: string, specs: seq<Spec>, retention: Option<RetentionRequest>, now: int)
    | BeginResubscribe(f: FlightId, principal: string, gid: GroupId, specs: seq<Spec>, admin: bool)
    | BeginCancel(f: FlightId, principal: string, gid: GroupId, admin: bool)
    | BeginExpire(f: FlightId, gid: GroupId, now: int)
    | BeginRestore(f: FlightId, gid: GroupId)
    | Finish(f: FlightId, ok: bool)
    | Arrive(event: Event)
    | BeginRead(request: ReadRequest, rid: ReadId, now: int)
    | FinishRead(gid: GroupId, position: Position, limit: int, principal: string, rid: ReadId, now: int)
    | Settle(token: Token, ok: bool)

  function Idle(cfg: Config): Overlapping {
    Overlapping(cfg, EMPTY, map[])
  }

  ghost predicate BeingCreated(flights: map<FlightId, Flight>, gid: GroupId) {
    exists f <- flights :: flights[f].gid == gid && flights[f].op.Creating?
  }

  ghost predicate Readable(c: Core, gid: GroupId) {
    gid in c.groups ==> |c.groups[gid].buffer| <= c.groups[gid].total
  }

  ghost predicate May(s: Overlapping, m: Move) {
    match m
    case BeginCreate(f, _, _, _, _) => f !in s.flights
    case BeginResubscribe(f, _, gid, _, _) => f !in s.flights && !BeingCreated(s.flights, gid)
    case BeginCancel(f, _, gid, _) => f !in s.flights && !BeingCreated(s.flights, gid)
    case BeginExpire(f, gid, now) =>
      f !in s.flights && !BeingCreated(s.flights, gid) && gid in s.core.groups && Due(s.core.groups[gid], now)
    case BeginRestore(f, gid) =>
      f !in s.flights && !BeingCreated(s.flights, gid) && gid in s.core.groups && s.core.groups[gid].status.Running()
    case Finish(f, _) => f in s.flights && s.flights[f].gid in s.core.groups
    case Arrive(_) => true
    case BeginRead(request, _, _) => !BeingCreated(s.flights, request.subscription)
      && Readable(s.core, request.subscription)
    case FinishRead(gid, _, _, _, _, _) => gid in s.core.groups && Readable(s.core, gid) && s.core.longPolls > 0
    case Settle(token, _) => token in s.core.pending
  }

  /** The second stretch of an operation, on whatever the group is by then. */
  ghost function Finished(c: Core, flight: Flight, ok: bool): Core
    requires flight.gid in c.groups
  {
    match flight.op
    case Creating(tokens, _) => if ok then c else CreateAbort(c, flight.gid, tokens)
    case Resubscribing(items, _) => if ok then ResubscribeCommit(c, flight.gid, items) else ResubscribeAbort(c, items)
    case Cancelling(tokens) => CancelFinish(c, flight.gid, tokens, ok)
    case Expiring(tokens) => ExpireFinish(c, flight.gid, tokens, ok)
    case Restoring(tokens, _) => if ok then c else RestoreAbort(c, flight.gid, tokens)
  }

  ghost function Begun(s: Overlapping, f: FlightId, core: Core, flight: Flight): Overlapping {
    s.(core := core, flights := s.flights[f := flight])
  }

  /** A move that may not be made changes nothing. */
  ghost function Make(s: Overlapping, m: Move): Overlapping {
    if !May(s, m) then s
    else
      match m
      case BeginCreate(f, principal, specs, retention, now) =>
        var (core, result) := CreateBegin(s.core, s.cfg, principal, specs, retention, now);
        if result.Err? then s.(core := core)
        else
          var items := NewItems(specs, s.core.tokenCounter, result.value + 1);
          Begun(s, f, core, Flight(result.value, Creating(Tokens(items), false)))
      case BeginResubscribe(f, principal, gid, specs, admin) =>
        var (core, result) := ResubscribeBegin(s.core, s.cfg, principal, gid, specs, admin);
        if result.Err? then s.(core := core)
        else Begun(s, f, core, Flight(gid, Op.Resubscribing(result.value, false)))
      case BeginCancel(f, principal, gid, admin) =>
        var result := CancelBegin(s.core, principal, gid, admin);
        if result.Ok? && result.value.Some? then Begun(s, f, s.core, Flight(gid, Op.Cancelling(result.value.value)))
        else s
      case BeginExpire(f, gid, _) =>
        Begun(s, f, s.core, Flight(gid, Expiring(Tokens(s.core.groups[gid].items))))
      case BeginRestore(f, gid) =>
        var core := RestoreBegin(s.core, gid);
        Begun(s, f, core, Flight(gid, Restoring(Tokens(core.groups[gid].items), false)))
      case Finish(f, ok) => s.(core := Finished(s.core, s.flights[f], ok), flights := s.flights - {f})
      case Arrive(event) => s.(core := HandleEvent(s.core, event))
      case BeginRead(request, rid, now) => s.(core := ReadBegin(s.core, s.cfg, request, rid, now).0)
      case FinishRead(gid, position, limit, principal, rid, now) =>
        s.(core := ReadFinish(s.core, s.cfg, gid, position, limit, principal, rid, now).0)
      case Settle(token, ok) => s.(core := RetryFinish(s.core, token, ok))
  }

  ghost function MakeAll(s: Overlapping, moves: seq<Move>): Overlapping {
    if moves == [] then s else Make(MakeAll(s, moves[..|moves| - 1]), moves[|moves| - 1])
  }

  // ------------------------------------------------------------------ the laws

  /** A group that is over stays registered and over, and a cancelled one stays cancelled. */
  ghost predicate Absorbs(groups: Groups, groups': Groups) {
    forall gid <- groups | groups[gid].status.Terminal() ::
      && gid in groups' && groups'[gid].status.Terminal()
      && (groups[gid].status.Cancelled? ==> groups'[gid].status.Cancelled?)
  }

  ghost predicate Kept(c: Core, c': Core) {
    RoutingSound(c'.groups, c'.tokenMap, c'.supply) && Absorbs(c.groups, c'.groups)
  }

  ghost function RoutedTo(c: Core, gid: GroupId): set<Token> {
    set t <- c.tokenMap | c.tokenMap[t].0 == gid
  }

  /**
   What the group must look like when an operation on it finishes. A committing replacement and a failing
   restore must not find it over; an expiry must not find it cancelled; and a cancel or an expiry must
   still hold every token that is routed to it.
   */
  ghost predicate Benign(c: Core, flight: Flight, ok: bool)
    requires flight.gid in c.groups
  {
    var status := c.groups[flight.gid].status;
    match flight.op
    case Creating(_, _) => true
    case Resubscribing(_, _) => ok ==> !status.Terminal()
    case Cancelling(tokens) => RoutedTo(c, flight.gid) <= tokens
    case Expiring(tokens) => !status.Cancelled? && RoutedTo(c, flight.gid) <= tokens
    case Restoring(_, _) => ok || !status.Terminal()
  }

  /** A finish is benign; a move of any other kind always is. */
  ghost predicate BenignMove(s: Overlapping, m: Move) {
    m.Finish? && May(s, m) ==> Benign(s.core, s.flights[m.f], m.ok)
  }

  ghost predicate AllBenign(s: Overlapping, moves: seq<Move>) {
    moves == [] ||
      (AllBenign(s, moves[..|moves| - 1]) && BenignMove(MakeAll(s, moves[..|moves| - 1]), moves[|moves| - 1]))
  }

  ghost predicate KeptThroughout(s: Overlapping, moves: seq<Move>) {
    moves == [] ||
      (KeptThroughout(s, moves[..|moves| - 1]) && Kept(MakeAll(s, moves[..|moves| - 1]).core, MakeAll(s, moves).core))
  }

  /** A group whose create has not returned has that one operation in flight and is not over. */
  ghost predicate FlightFits(groups: Groups, flights: map<FlightId, Flight>, f: FlightId)
    requires f in flights
  {
    && flights[f].gid in groups
    && (flights[f].op.Creating? ==>
          && !groups[flights[f].gid].status.Terminal()
          && forall e <- flights :: e == f || flights[e].gid != flights[f].gid)
  }

  ghost predicate FlightsFit(groups: Groups, flights: map<FlightId, Flight>) {
    forall f <- flights :: FlightFits(groups, flights, f)
  }

  ghost predicate Sane(s: Overlapping) {
    && (forall gid <- s.core.groups :: gid < s.core.supply)
    && RoutingSound(s.core.groups, s.core.tokenMap, s.core.supply)
    && FlightsFit(s.core.groups, s.flights)
  }

  // ------------------------------------------------------------- one stretch

  ghost predicate Ranged(c: Core) {
    RoutingSound(c.groups, c.tokenMap, c.supply) && forall gid <- c.groups :: gid < c.supply
  }

  /** No group but this one is removed or brought to an end. */
  ghost predicate Spares(groups: Groups, groups': Groups, gid: GroupId) {
    forall h <- groups | h != gid :: h in groups' && (groups'[h].status.Terminal() ==> groups[h].status.Terminal())
  }

  /** A step on one group that keeps the laws and brings no group to an end, except perhaps that one. */
  ghost predicate Good(c: Core, c': Core, gid: GroupId) {
    && Ranged(c') && c.supply <= c'.supply && c.groups.Keys <= c'.groups.Keys
    && Absorbs(c.groups, c'.groups) && Spares(c.groups, c'.groups, gid)
  }

  ghost predicate Fewer(tokenMap: map<Token, (GroupId, ItemId)>, tokenMap': map<Token, (GroupId, ItemId)>) {
    forall t <- tokenMap' :: t in tokenMap && tokenMap'[t] == tokenMap[t]
  }

  /** What a status change may do to the group it is of. */
  ghost predicate Follows(status: GroupStatus, status': GroupStatus) {
    status.Terminal() ==> status'.Terminal() && (status.Cancelled? ==> status'.Cancelled?)
  }

  lemma RelabelGood(c: Core, c': Core, gid: GroupId, g': Group)
    requires Ranged(c) && gid in c.groups && c'.groups == c.groups[gid := g'] && c'.supply == c.supply
    requires Fewer(c.tokenMap, c'.tokenMap)
    requires |g'.items| == |c.groups[gid].items|
    requires forall i | 0 <= i < |g'.items| ::
               g'.items[i].id == c.groups[gid].items[i].id && g'.items[i].token == c.groups[gid].items[i].token
    requires Follows(c.groups[gid].status, g'.status)
    requires g'.status.Terminal() ==> forall t <- c'.tokenMap :: c'.tokenMap[t].0 != gid
    ensures Good(c, c', gid)
  {
    FewerSound(c, c'.tokenMap);
    RoutingRelabel(c.groups, c'.tokenMap, c.supply, gid, g');
  }

  lemma FewerSound(c: Core, tokenMap': map<Token, (GroupId, ItemId)>)
    requires Ranged(c) && Fewer(c.tokenMap, tokenMap')
    ensures RoutingSound(c.groups, tokenMap', c.supply)
  {
    forall t <- tokenMap' ensures tokenMap'[t].0 < c.supply && EntrySound(c.groups, t, tokenMap'[t]) {
      assert EntrySound(c.groups, t, c.tokenMap[t]);
    }
  }

  /** A group that is not over takes new items, or is new. */
  lemma AdoptGood(c: Core, c': Core, left: map<Token, (GroupId, ItemId)>, gid: GroupId, g': Group)
    requires Ranged(c) && (gid in c.groups ==> !c.groups[gid].status.Terminal()) && gid < c'.supply
             && c.supply <= c'.supply
    requires Fewer(c.tokenMap, left) && (forall t <- left :: left[t].0 != gid) && !g'.status.Terminal()
    requires c'.groups == c.groups[gid := g'] && c'.tokenMap == Route(left, gid, g'.items)
    ensures Good(c, c', gid)
  {
    hide Route;
    FewerSound(c, left);
    SupplySound(c.groups, left, c.supply, c'.supply);
    RoutingAdopt(c.groups, left, c'.supply, gid, g');
  }

  lemma SupplySound(groups: Groups, tokenMap: map<Token, (GroupId, ItemId)>, supply: nat, supply': nat)
    requires RoutingSound(groups, tokenMap, supply) && supply <= supply'
    ensures RoutingSound(groups, tokenMap, supply')
  {
    hide EntrySound;
  }

  lemma QuietGood(c: Core, c': Core, gid: GroupId)
    requires Ranged(c) && Quiet(c, c')
    ensures Good(c, c', gid)
  {
    forall t <- c'.tokenMap ensures c'.tokenMap[t].0 < c'.supply && EntrySound(c'.groups, t, c'.tokenMap[t]) {
      assert EntrySound(c.groups, t, c.tokenMap[t]);
      if c.tokenMap[t].0 in c.groups {
        WaitersCarry(c.groups[c.tokenMap[t].0], c'.groups[c.tokenMap[t].0], c.tokenMap[t].1, t);
      }
    }
  }

  lemma WaitersCarry(g: Group, g': Group, id: ItemId, t: Token)
    requires g' == g.(waiters := g'.waiters)
    ensures Carries(g', id, t) == Carries(g, id, t)
  {
  }

  lemma ArriveGood(c: Core, event: Event)
    requires Ranged(c)
    ensures var c' := HandleEvent(c, event);
            Good(c, c', c.supply) && c'.groups.Keys == c.groups.Keys && c'.supply == c.supply
  {
    hide Deliver, Recompute;
    if Target(c, event.token).Some? {
      var (gid, i) := Target(c, event.token).value;
      var g := c.groups[gid];
      assert EntrySound(c.groups, event.token, c.tokenMap[event.token]);
      DeliverRuns(g, i, event);
      RelabelGood(c, HandleEvent(c, event), gid, Deliver(g, i, event));
    }
  }

  lemma DeliverRuns(g: Group, i: nat, event: Event)
    requires i < |g.items| && !g.status.Terminal()
    ensures var g' := Deliver(g, i, event);
            && !g'.status.Terminal() && |g'.items| == |g.items|
            && forall j | 0 <= j < |g.items| :: g'.items[j].id == g.items[j].id && g'.items[j].token == g.items[j].token
  {
    hide Recompute;
    RecomputeRuns(Deliver(g, i, event).items, g.status);
  }

  lemma CreateGood(c: Core, cfg: Config, principal: string, specs: seq<Spec>, request: Option<RetentionRequest>,
                   now: int)
    requires Ranged(c)
    ensures var (c', result) := CreateBegin(c, cfg, principal, specs, request, now);
            && Good(c, c', c.supply)
            && (result.Ok? ==> result.value == c.supply && c'.groups.Keys == c.groups.Keys + {c.supply}
                               && !c'.groups[c.supply].status.Terminal())
            && (result.Err? ==> c'.groups == c.groups)
  {
    hide CreateError, Route, NewItems, Accepted;
    var (c', result) := CreateBegin(c, cfg, principal, specs, request, now);
    if CreateError(c, cfg, principal, specs, request).None? {
      var n := Accepted(specs, cfg);
      var items := NewItems(specs[..n], c.tokenCounter, c.supply + 1);
      ModeIsKnown(c, cfg, principal, specs, request);
      if n < |specs| {
        RoutingStray(c.groups, c.tokenMap, c.supply, c'.supply, c.supply, items);
      } else {
        AdoptGood(c, c', c.tokenMap, c.supply,
                  NewGroup(cfg, principal, items, request, RequestedRetention(request).value, now));
      }
    }
  }

  lemma ModeIsKnown(c: Core, cfg: Config, principal: string, specs: seq<Spec>, request: Option<RetentionRequest>)
    requires CreateError(c, cfg, principal, specs, request).None?
    ensures RequestedRetention(request).Some?
  {
  }

  lemma RestoreGood(c: Core, gid: GroupId)
    requires Ranged(c) && gid in c.groups && !c.groups[gid].status.Terminal()
    ensures var c' := RestoreBegin(c, gid);
            Good(c, c', gid) && !c'.groups[gid].status.Terminal() && c'.groups.Keys == c.groups.Keys
  {
    hide Route, Invalidate, Tokens, RoutingSound;
    Unrouted(c.groups, c.tokenMap, c.supply, gid);
    var g' := RestoreBegin(c, gid).groups[gid];
    AdoptGood(c, RestoreBegin(c, gid), c.tokenMap - Tokens(c.groups[gid].items), gid, g');
  }

  lemma SoundRouting(c: Core, gid: GroupId)
    requires RoutingSound(c.groups, c.tokenMap, c.supply)
    ensures gid in c.groups ==> RoutedTo(c, gid) <= Tokens(c.groups[gid].items)
    ensures gid in c.groups && c.groups[gid].status.Terminal() ==> RoutedTo(c, gid) == {}
  {
    forall t | t in c.tokenMap && c.tokenMap[t].0 == gid && gid in c.groups
      ensures t in Tokens(c.groups[gid].items) && !c.groups[gid].status.Terminal() {
      assert EntrySound(c.groups, t, c.tokenMap[t]);
    }
  }

  // ------------------------------------------------------------- one finish

  /** A finish on a group that is registered keeps both laws exactly when it is benign. */
  lemma FinishExactly(c: Core, flight: Flight, ok: bool)
    requires Ranged(c) && flight.gid in c.groups
    requires flight.op.Creating? ==> !c.groups[flight.gid].status.Terminal()
    ensures Kept(c, Finished(c, flight, ok)) <==> Benign(c, flight, ok)
    ensures Benign(c, flight, ok) && !(flight.op.Creating? && !ok) ==> Good(c, Finished(c, flight, ok), flight.gid)
  {
    hide Ranged, Route, Recompute, Invalidate, Benign, Finished, Kept, Good, Fewer, CreateAbort;
    match flight.op {
      case Creating(_, _) => FinishCreate(c, flight, ok);
      case Resubscribing(_, _) => FinishResubscribe(c, flight, ok);
      case Cancelling(_) => FinishCancel(c, flight, ok);
      case Expiring(_) => FinishExpire(c, flight, ok);
      case Restoring(_, _) => FinishRestore(c, flight, ok);
    }
  }

  lemma FinishCreate(c: Core, flight: Flight, ok: bool)
    requires Ranged(c) && flight.gid in c.groups && flight.op.Creating? && !c.groups[flight.gid].status.Terminal()
    ensures Kept(c, Finished(c, flight, ok)) && Benign(c, flight, ok)
    ensures ok ==> Good(c, Finished(c, flight, ok), flight.gid)
  {
    if !ok {
      RoutingDrop(c.groups, c.tokenMap, c.supply, flight.gid, flight.op.tokens);
    }
  }

  lemma FinishResubscribe(c: Core, flight: Flight, ok: bool)
    requires Ranged(c) && flight.gid in c.groups && flight.op.Resubscribing?
    ensures Kept(c, Finished(c, flight, ok)) <==> Benign(c, flight, ok)
    ensures Benign(c, flight, ok) ==> Good(c, Finished(c, flight, ok), flight.gid)
  {
    hide Route, Recompute, Invalidate, Tokens, RoutingSound;
    var gid := flight.gid;
    var items := flight.op.items;
    if !ok {
      FewerSound(c, ResubscribeAbort(c, items).tokenMap);
    } else {
      RecomputeRuns(items, GroupStatus.Starting);
      if !c.groups[gid].status.Terminal() {
        var left := c.tokenMap - Tokens(c.groups[gid].items);
        Unrouted(c.groups, c.tokenMap, c.supply, gid);
        AdoptGood(c, ResubscribeCommit(c, gid, items), left, gid, ResubscribeCommit(c, gid, items).groups[gid]);
      }
    }
  }

  /** A group that is over has nothing routed to it, in a sound state. */
  lemma OverIsUnrouted(c: Core, gid: GroupId, t: Token)
    requires RoutingSound(c.groups, c.tokenMap, c.supply) && gid in c.groups && c.groups[gid].status.Terminal()
    ensures !(t in c.tokenMap && c.tokenMap[t].0 == gid)
  {
    if t in c.tokenMap {
      assert EntrySound(c.groups, t, c.tokenMap[t]);
    }
  }

  lemma FinishCancel(c: Core, flight: Flight, ok: bool)
    requires Ranged(c) && flight.gid in c.groups && flight.op.Cancelling?
    ensures Kept(c, Finished(c, flight, ok)) <==> Benign(c, flight, ok)
    ensures Benign(c, flight, ok) ==> Good(c, Finished(c, flight, ok), flight.gid)
  {
    hide Invalidate, RoutingSound, Carries;
    var gid := flight.gid;
    var c' := Finished(c, flight, ok);
    if Benign(c, flight, ok) {
      RelabelGood(c, c', gid, c'.groups[gid]);
    } else {
      var t :| t in RoutedTo(c, gid) && t !in flight.op.tokens;
      if Kept(c, c') {
        OverIsUnrouted(c', gid, t);
      }
    }
  }

  lemma FinishExpire(c: Core, flight: Flight, ok: bool)
    requires Ranged(c) && flight.gid in c.groups && flight.op.Expiring?
    ensures Kept(c, Finished(c, flight, ok)) <==> Benign(c, flight, ok)
    ensures Benign(c, flight, ok) ==> Good(c, Finished(c, flight, ok), flight.gid)
  {
    hide Invalidate, RoutingSound, Carries;
    var gid := flight.gid;
    var c' := Finished(c, flight, ok);
    if Benign(c, flight, ok) {
      RelabelGood(c, c', gid, c'.groups[gid]);
    } else if !c.groups[gid].status.Cancelled? {
      var t :| t in RoutedTo(c, gid) && t !in flight.op.tokens;
      if Kept(c, c') {
        OverIsUnrouted(c', gid, t);
      }
    }
  }

  lemma FinishRestore(c: Core, flight: Flight, ok: bool)
    requires Ranged(c) && flight.gid in c.groups && flight.op.Restoring?
    ensures Kept(c, Finished(c, flight, ok)) <==> Benign(c, flight, ok)
    ensures Benign(c, flight, ok) ==> Good(c, Finished(c, flight, ok), flight.gid)
  {
    hide Invalidate, RoutingSound, Carries;
    if !ok && !c.groups[flight.gid].status.Terminal() {
      var c' := Finished(c, flight, ok);
      RelabelGood(c, c', flight.gid, c'.groups[flight.gid]);
    }
  }
}
