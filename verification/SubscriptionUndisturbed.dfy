/**
 When an overlapping operation is benign, read off the steps: nothing on its group disturbs it while it is in flight.
 */
module SubscriptionUndisturbed {
  import opened Wrappers
  import opened Cursors
  import opened SubscriptionModel
  import opened SubscriptionSystem
  import opened SubscriptionLedger
  import opened SubscriptionFrames
  import opened SubscriptionSafety
  import opened SubscriptionOverlap
  import opened SubscriptionOverlapRuns

  ghost predicate Finishes(s: Overlapping, m: Move, gid: GroupId) {
    m.Finish? && May(s, m) && s.flights[m.f].gid == gid
  }

  ghost predicate Commits(s: Overlapping, m: Move, gid: GroupId) {
    Finishes(s, m, gid) && s.flights[m.f].op.Resubscribing? && m.ok
  }

  ghost predicate Restores(s: Overlapping, m: Move, gid: GroupId) {
    m.BeginRestore? && m.gid == gid && May(s, m)
  }

  ghost predicate Cancels(s: Overlapping, m: Move, gid: GroupId) {
    Finishes(s, m, gid) && s.flights[m.f].op.Cancelling?
  }

  ghost predicate Expires(s: Overlapping, m: Move, gid: GroupId) {
    Finishes(s, m, gid) && s.flights[m.f].op.Expiring?
  }

  /** The steps on its group that an operation in flight should not see. */
  ghost predicate Disturbs(s: Overlapping, m: Move, flight: Flight) {
    match flight.op
    case Creating(_, _) => false
    case Resubscribing(_, _) => Cancels(s, m, flight.gid) || Expires(s, m, flight.gid)
    case Restoring(_, _) => Cancels(s, m, flight.gid) || Expires(s, m, flight.gid)
    case Cancelling(_) => Commits(s, m, flight.gid) || Restores(s, m, flight.gid)
    case Expiring(_) => Commits(s, m, flight.gid) || Restores(s, m, flight.gid) || Cancels(s, m, flight.gid)
  }

  /** However this operation finishes, it is benign. */
  ghost predicate Prepared(c: Core, flight: Flight) {
    flight.gid < c.supply && (flight.gid in c.groups ==> Benign(c, flight, true) && Benign(c, flight, false))
  }

  lemma RoutedElsewhere(tokenMap: map<Token, (GroupId, ItemId)>, h: GroupId, items: seq<Item>, gid: GroupId, t: Token)
    requires h != gid && t in Route(tokenMap, h, items) && Route(tokenMap, h, items)[t].0 == gid
    ensures t in tokenMap && tokenMap[t].0 == gid
  {
    RouteEntries(tokenMap, h, items, t);
  }

  /** What one step does to a group it is not on, or is on harmlessly. */
  ghost predicate Leaves(s: Overlapping, m: Move, s': Overlapping, gid: GroupId) {
    && s.core.supply <= s'.core.supply
    && (!Commits(s, m, gid) && !Restores(s, m, gid) ==> RoutedTo(s'.core, gid) <= RoutedTo(s.core, gid))
    && (gid in s'.core.groups ==>
          && gid in s.core.groups
          && (s'.core.groups[gid].status.Terminal() ==>
                s.core.groups[gid].status.Terminal() || Cancels(s, m, gid) || Expires(s, m, gid))
          && (s'.core.groups[gid].status.Cancelled? ==> s.core.groups[gid].status.Cancelled? || Cancels(s, m, gid)))
  }

  /** Fewer entries, and this group as it was or running. */
  lemma SameLeaves(s: Overlapping, m: Move, s': Overlapping, gid: GroupId)
    requires s.core.supply <= s'.core.supply && Fewer(s.core.tokenMap, s'.core.tokenMap)
    requires gid in s'.core.groups ==>
               gid in s.core.groups &&
               (!s'.core.groups[gid].status.Terminal() || s'.core.groups[gid].status == s.core.groups[gid].status)
    ensures Leaves(s, m, s', gid)
  {
    hide May;
  }

  lemma CreateLeaves(s: Overlapping, m: Move, gid: GroupId)
    requires m.BeginCreate? && May(s, m) && gid < s.core.supply
    ensures Leaves(s, m, Make(s, m), gid)
  {
    hide CreateError, Route, NewItems, Accepted, NewGroup, Tokens;
    var c' := CreateBegin(s.core, s.cfg, m.principal, m.specs, m.retention, m.now).0;
    assert Make(s, m).core == c';
    forall t <- RoutedTo(c', gid) ensures t in RoutedTo(s.core, gid) {
      if c'.tokenMap != s.core.tokenMap {
        var n := Accepted(m.specs, s.cfg);
        var items := NewItems(m.specs[..n], s.core.tokenCounter, s.core.supply + 1);
        RoutedElsewhere(s.core.tokenMap, s.core.supply, items, gid, t);
      }
    }
  }

  lemma RestoreLeaves(s: Overlapping, m: Move, gid: GroupId)
    requires m.BeginRestore? && May(s, m)
    ensures Leaves(s, m, Make(s, m), gid)
  {
    hide Route, Renewed, Tokens, Invalidate, BeingCreated;
    var c := s.core;
    var c' := RestoreBegin(c, m.gid);
    assert Make(s, m).core == c';
    if m.gid != gid {
      forall t | t in c'.tokenMap && c'.tokenMap[t].0 == gid ensures t in c.tokenMap && c.tokenMap[t].0 == gid {
        RoutedElsewhere(c.tokenMap - Tokens(c.groups[m.gid].items), m.gid,
                        Renewed(c.groups[m.gid].items, c.tokenCounter), gid, t);
      }
    }
  }

  lemma CommitLeaves(s: Overlapping, m: Move, gid: GroupId)
    requires m.Finish? && May(s, m) && s.flights[m.f].op.Resubscribing?
    ensures Leaves(s, m, Make(s, m), gid)
  {
    hide Route, Tokens, Invalidate, Recompute;
    var c, flight := s.core, s.flights[m.f];
    var c' := Finished(c, flight, m.ok);
    if m.ok {
      RecomputeRuns(flight.op.items, GroupStatus.Starting);
      if flight.gid != gid {
        forall t | t in c'.tokenMap && c'.tokenMap[t].0 == gid ensures t in c.tokenMap && c.tokenMap[t].0 == gid {
          RoutedElsewhere(c.tokenMap - Tokens(c.groups[flight.gid].items), flight.gid, flight.op.items, gid, t);
        }
      }
    }
  }

  lemma FinishLeaves(s: Overlapping, m: Move, gid: GroupId)
    requires m.Finish? && May(s, m) && !s.flights[m.f].op.Resubscribing?
    ensures Leaves(s, m, Make(s, m), gid)
  {
    hide Tokens, Invalidate, WithStatus;
  }

  lemma ArriveLeaves(s: Overlapping, m: Move, gid: GroupId)
    requires m.Arrive?
    ensures Leaves(s, m, Make(s, m), gid)
  {
    hide Recompute;
    var target := Target(s.core, m.event.token);
    if target.Some? {
      var (h, i) := target.value;
      var g := s.core.groups[h];
      RecomputeRuns(Deliver(g, i, m.event).items, g.status);
    }
  }

  lemma QuietLeaves(s: Overlapping, m: Move, s': Overlapping, gid: GroupId)
    requires Quiet(s.core, s'.core)
    ensures Leaves(s, m, s', gid)
  {
    SameLeaves(s, m, s', gid);
  }

  lemma BeginLeaves(s: Overlapping, m: Move, gid: GroupId)
    requires May(s, m) && (m.BeginResubscribe? || m.BeginCancel? || m.BeginExpire? || m.Settle?)
    ensures Leaves(s, m, Make(s, m), gid)
  {
    hide NewItems, Tokens, Accepted, ResubscribeError, CancelBegin, BeingCreated, Leaves;
    QuietLeaves(s, m, Make(s, m), gid);
  }

  lemma LookLeaves(s: Overlapping, m: Move, gid: GroupId)
    requires May(s, m) && (m.BeginRead? || m.FinishRead?)
    ensures Leaves(s, m, Make(s, m), gid)
  {
    hide ReadBegin, ReadFinish, Leaves, BeingCreated, Quiet;
    match m {
      case BeginRead(request, rid, now) => ReadBeginLooks(s.core, s.cfg, request, rid, now);
      case FinishRead(h, position, limit, principal, rid, now) =>
        ReadFinishLooks(s.core, s.cfg, h, position, limit, principal, rid, now);
    }
    QuietLeaves(s, m, Make(s, m), gid);
  }

  lemma MoveLeaves(s: Overlapping, m: Move, gid: GroupId)
    requires gid < s.core.supply
    ensures Leaves(s, m, Make(s, m), gid)
  {
    hide Leaves, Finished, Benign, HandleEvent, BeingCreated, Readable, Quiet;
    if !May(s, m) {
      assert Make(s, m) == s;
      QuietIdle(s.core);
      QuietLeaves(s, m, s, gid);
    } else {
      match m
      case BeginCreate(_, _, _, _, _) => CreateLeaves(s, m, gid);
      case BeginRestore(_, _) => RestoreLeaves(s, m, gid);
      case Finish(f, _) =>
        if s.flights[f].op.Resubscribing? {
          CommitLeaves(s, m, gid);
        } else {
          FinishLeaves(s, m, gid);
        }
      case Arrive(_) => ArriveLeaves(s, m, gid);
      case BeginRead(_, _, _) => LookLeaves(s, m, gid);
      case FinishRead(_, _, _, _, _, _) => LookLeaves(s, m, gid);
      case _ => BeginLeaves(s, m, gid);
    }
  }

  lemma QuietIdle(c: Core)
    ensures Quiet(c, c)
  {
  }

  /** A step that does not disturb an operation leaves it benign. */
  lemma StaysPrepared(s: Overlapping, m: Move, flight: Flight)
    requires Prepared(s.core, flight) && !Disturbs(s, m, flight)
    ensures Prepared(Make(s, m).core, flight)
  {
    hide Make, RoutedTo, Commits, Restores, Cancels, Expires;
    MoveLeaves(s, m, flight.gid);
  }

  /** An operation is benign when it begins. */
  lemma BeginsPrepared(s: Overlapping, m: Move, f: FlightId)
    requires Sane(s) && f in Make(s, m).flights && f !in s.flights
    ensures Prepared(Make(s, m).core, Make(s, m).flights[f])
  {
    hide RoutingSound, FlightsFit, Route, Renewed, NewItems, Accepted, CreateError, Invalidate, Tokens, RoutedTo;
    if m.BeginCreate? {
      NotYetDrawn(s);
    } else if m.BeginCancel? || m.BeginExpire? {
      SoundRouting(s.core, m.gid);
    }
  }

  /** Along these moves nothing disturbs this operation, and it does not finish. */
  ghost predicate Undisturbed(s: Overlapping, moves: seq<Move>, f: FlightId, flight: Flight) {
    moves == [] ||
      var init, m := moves[..|moves| - 1], moves[|moves| - 1];
      Undisturbed(s, init, f, flight) && !Disturbs(MakeAll(s, init), m, flight) && !(m.Finish? && m.f == f)
  }

  lemma {:induction false} StaysOut(s: Overlapping, moves: seq<Move>, f: FlightId)
    requires f in s.flights && Prepared(s.core, s.flights[f]) && Undisturbed(s, moves, f, s.flights[f])
    ensures var t := MakeAll(s, moves); f in t.flights && t.flights[f] == s.flights[f] && Prepared(t.core, s.flights[f])
  {
    hide Make, Prepared, Disturbs;
    if moves != [] {
      var init, m := moves[..|moves| - 1], moves[|moves| - 1];
      StaysOut(s, init, f);
      StaysPrepared(MakeAll(s, init), m, s.flights[f]);
      FlightKept(MakeAll(s, init), m, f);
    }
  }

  lemma FlightKept(s: Overlapping, m: Move, f: FlightId)
    requires f in s.flights && !(m.Finish? && m.f == f)
    ensures f in Make(s, m).flights && Make(s, m).flights[f] == s.flights[f]
  {
    hide BeingCreated, Readable, CreateBegin, ResubscribeBegin, CancelBegin, RestoreBegin, Tokens, Finished, Benign;
  }

  /** A finish that leaves its operation in flight was not made. */
  lemma NotFinished(s: Overlapping, m: Move)
    requires m.Finish? && m.f in Make(s, m).flights
    ensures Make(s, m) == s
  {
    hide Finished, Benign;
  }

  lemma PreparedIsBenign(s: Overlapping, m: Move)
    requires m.Finish? && May(s, m) && Prepared(s.core, s.flights[m.f])
    ensures Benign(s.core, s.flights[m.f], m.ok)
  {
    hide RoutedTo;
  }

  /**
   An operation is benign when it finishes if, since it began, no cancel or expiry of its group finished (for a
   replacement or a restore), or no replacement of it was committed, no restore of it began and, for an expiry, no
   cancel of it finished.
   */
  lemma UndisturbedIsBenign(cfg: Config, before: seq<Move>, begin: Move, between: seq<Move>, f: FlightId, ok: bool)
    requires AllBenign(Idle(cfg), before)
    requires f !in MakeAll(Idle(cfg), before).flights
    requires var s := Make(MakeAll(Idle(cfg), before), begin);
             f in s.flights && Undisturbed(s, between, f, s.flights[f])
    ensures BenignMove(MakeAll(Make(MakeAll(Idle(cfg), before), begin), between), Finish(f, ok))
  {
    hide Make, MakeAll, Benign, Undisturbed;
    OverlapExactly(cfg, before);
    var s := MakeAll(Idle(cfg), before);
    BeginsPrepared(s, begin, f);
    StaysOut(Make(s, begin), between, f);
  }

  /** No move of the run disturbs an operation that is in flight, other than the one it finishes. */
  ghost predicate Tidy(s: Overlapping, moves: seq<Move>) {
    moves == [] ||
      var init, m := moves[..|moves| - 1], moves[|moves| - 1];
      var t := MakeAll(s, init);
      Tidy(s, init) && forall f <- t.flights :: (m.Finish? && m.f == f) || !Disturbs(t, m, t.flights[f])
  }

  /** So a run in which no operation is disturbed keeps both laws throughout. */
  lemma {:induction false} TidyRunsKeep(cfg: Config, moves: seq<Move>)
    requires Tidy(Idle(cfg), moves)
    ensures AllBenign(Idle(cfg), moves) && KeptThroughout(Idle(cfg), moves)
    ensures forall f <- MakeAll(Idle(cfg), moves).flights ::
            Prepared(MakeAll(Idle(cfg), moves).core, MakeAll(Idle(cfg), moves).flights[f])
  {
    hide Make, Kept, Prepared, Disturbs, Sane;
    if moves != [] {
      var init, m := moves[..|moves| - 1], moves[|moves| - 1];
      var s := MakeAll(Idle(cfg), init);
      TidyRunsKeep(cfg, init);
      OverlapExactly(cfg, init);
      forall f <- Make(s, m).flights ensures Prepared(Make(s, m).core, Make(s, m).flights[f]) {
        if f in s.flights && !(m.Finish? && m.f == f) {
          StaysPrepared(s, m, s.flights[f]);
          FlightKept(s, m, f);
        } else if f in s.flights {
          NotFinished(s, m);
        } else {
          BeginsPrepared(s, m, f);
        }
      }
      assert BenignMove(s, m) by {
        if m.Finish? && May(s, m) {
          PreparedIsBenign(s, m);
        }
      }
      MoveExactly(s, m);
    }
  }
}
