/** Overlapping operations, move by move and over whole runs: the two laws hold exactly while every finish is benign. */
module SubscriptionOverlapRuns {
  import opened Wrappers
  import opened Cursors
  import opened SubscriptionModel
  import opened SubscriptionSystem
  import opened SubscriptionFrames
  import opened SubscriptionSafety
  import opened SubscriptionOverlap

  // ---------------------------------------------------------------- one move

  lemma FlightsOnward(groups: Groups, groups': Groups, flights: map<FlightId, Flight>, gid: GroupId)
    requires FlightsFit(groups, flights) && groups.Keys <= groups'.Keys && Spares(groups, groups', gid)
    requires gid in groups ==> !BeingCreated(flights, gid)
    ensures FlightsFit(groups', flights)
  {
    forall f <- flights ensures FlightFits(groups', flights, f) {
      assert FlightFits(groups, flights, f);
    }
  }

  lemma FlightBegins(groups: Groups, flights: map<FlightId, Flight>, f: FlightId, flight: Flight)
    requires FlightsFit(groups, flights) && f !in flights && flight.gid in groups
    requires forall e <- flights | flights[e].gid == flight.gid :: !flight.op.Creating? && !flights[e].op.Creating?
    requires flight.op.Creating? ==> !groups[flight.gid].status.Terminal()
    ensures FlightsFit(groups, flights[f := flight])
  {
    var flights' := flights[f := flight];
    forall e <- flights' ensures FlightFits(groups, flights', e) {
      if e != f {
        assert FlightFits(groups, flights, e);
      }
    }
  }

  lemma FlightEnds(groups: Groups, groups': Groups, flights: map<FlightId, Flight>, f: FlightId)
    requires FlightsFit(groups, flights) && f in flights && Spares(groups, groups', flights[f].gid)
    requires !flights[f].op.Creating? ==> flights[f].gid in groups'
    ensures FlightsFit(groups', flights - {f})
  {
    assert FlightFits(groups, flights, f);
    forall e <- flights - {f} ensures FlightFits(groups', flights - {f}, e) {
      assert FlightFits(groups, flights, e);
    }
  }

  lemma NotYetDrawn(s: Overlapping)
    requires Sane(s)
    ensures s.core.supply !in s.core.groups && forall e <- s.flights :: s.flights[e].gid != s.core.supply
  {
    hide RoutingSound;
    forall e <- s.flights ensures s.flights[e].gid != s.core.supply {
      assert FlightFits(s.core.groups, s.flights, e);
    }
  }

  lemma FinishSane(s: Overlapping, f: FlightId, ok: bool)
    requires Sane(s) && May(s, Finish(f, ok))
    ensures var s' := Make(s, Finish(f, ok));
            && (Kept(s.core, s'.core) <==> Benign(s.core, s.flights[f], ok))
            && (Benign(s.core, s.flights[f], ok) ==> Sane(s'))
  {
    hide RoutingSound, Finished, Benign, Kept;
    var flight := s.flights[f];
    assert FlightFits(s.core.groups, s.flights, f);
    FinishExactly(s.core, flight, ok);
    var c' := Finished(s.core, flight, ok);
    if Benign(s.core, flight, ok) {
      if flight.op.Creating? && !ok {
        AbortSpares(s.core, flight);
      }
      FlightEnds(s.core.groups, c'.groups, s.flights, f);
    }
  }

  lemma AbortSpares(c: Core, flight: Flight)
    requires Ranged(c) && flight.gid in c.groups && flight.op.Creating?
    ensures var c' := Finished(c, flight, false); Ranged(c') && Spares(c.groups, c'.groups, flight.gid)
  {
    hide RoutingSound;
    RoutingDrop(c.groups, c.tokenMap, c.supply, flight.gid, flight.op.tokens);
  }

  lemma QuietSane(s: Overlapping, core: Core)
    requires Sane(s) && Quiet(s.core, core)
    ensures Kept(s.core, core) && Sane(s.(core := core))
  {
    hide RoutingSound, FlightsFit, Quiet;
    QuietGood(s.core, core, s.core.supply);
    FlightsOnward(s.core.groups, core.groups, s.flights, s.core.supply);
  }

  /** An operation begins that does not touch the registry. */
  lemma BegunSane(s: Overlapping, f: FlightId, core: Core, flight: Flight)
    requires Sane(s) && Quiet(s.core, core) && f !in s.flights && flight.gid in s.core.groups
    requires !flight.op.Creating? && !BeingCreated(s.flights, flight.gid)
    ensures Kept(s.core, core) && Sane(Begun(s, f, core, flight))
  {
    hide RoutingSound, FlightsFit;
    QuietSane(s, core);
    FlightBegins(core.groups, s.flights, f, flight);
  }

  lemma BeginCreateSane(s: Overlapping, m: Move)
    requires Sane(s) && m.BeginCreate? && May(s, m)
    ensures Kept(s.core, Make(s, m).core) && Sane(Make(s, m))
  {
    hide RoutingSound, FlightsFit, CreateBegin, NewItems, Tokens;
    var (core, result) := CreateBegin(s.core, s.cfg, m.principal, m.specs, m.retention, m.now);
    CreateGood(s.core, s.cfg, m.principal, m.specs, m.retention, m.now);
    NotYetDrawn(s);
    FlightsOnward(s.core.groups, core.groups, s.flights, s.core.supply);
    if result.Ok? {
      var items := NewItems(m.specs, s.core.tokenCounter, result.value + 1);
      FlightBegins(core.groups, s.flights, m.f, Flight(result.value, Creating(Tokens(items), false)));
    }
  }

  lemma BeginRestoreSane(s: Overlapping, m: Move)
    requires Sane(s) && m.BeginRestore? && May(s, m)
    ensures Kept(s.core, Make(s, m).core) && Sane(Make(s, m))
  {
    hide RoutingSound, FlightsFit, RestoreBegin, Tokens;
    var core := RestoreBegin(s.core, m.gid);
    RestoreGood(s.core, m.gid);
    FlightsOnward(s.core.groups, core.groups, s.flights, m.gid);
    FlightBegins(core.groups, s.flights, m.f, Flight(m.gid, Restoring(Tokens(core.groups[m.gid].items), false)));
  }

  lemma BeginSane(s: Overlapping, m: Move)
    requires Sane(s) && May(s, m) && (m.BeginResubscribe? || m.BeginCancel? || m.BeginExpire?)
    ensures Kept(s.core, Make(s, m).core) && Sane(Make(s, m))
  {
    hide RoutingSound, FlightsFit, NewItems, Tokens, Accepted, Sane, Kept;
    QuietSane(s, s.core);
    match m {
      case BeginResubscribe(f, principal, gid, specs, admin) =>
        var (core, result) := ResubscribeBegin(s.core, s.cfg, principal, gid, specs, admin);
        if result.Ok? {
          BegunSane(s, f, core, Flight(gid, Op.Resubscribing(result.value, false)));
        } else {
          QuietSane(s, core);
        }
      case BeginCancel(f, principal, gid, admin) =>
        var result := CancelBegin(s.core, principal, gid, admin);
        if result.Ok? && result.value.Some? {
          BegunSane(s, f, s.core, Flight(gid, Op.Cancelling(result.value.value)));
        }
      case BeginExpire(f, gid, _) =>
        BegunSane(s, f, s.core, Flight(gid, Expiring(Tokens(s.core.groups[gid].items))));
    }
  }

  lemma LookSane(s: Overlapping, m: Move)
    requires Sane(s) && May(s, m) && (m.Arrive? || m.BeginRead? || m.FinishRead? || m.Settle?)
    ensures Kept(s.core, Make(s, m).core) && Sane(Make(s, m))
  {
    hide RoutingSound, FlightsFit, HandleEvent, ReadBegin, ReadFinish, Kept, Ranged;
    match m {
      case Arrive(event) => ArriveSane(s, event);
      case BeginRead(request, rid, now) =>
        ReadBeginLooks(s.core, s.cfg, request, rid, now);
        QuietSane(s, Make(s, m).core);
      case FinishRead(gid, position, limit, principal, rid, now) =>
        ReadFinishLooks(s.core, s.cfg, gid, position, limit, principal, rid, now);
        QuietSane(s, Make(s, m).core);
      case Settle(token, ok) => QuietSane(s, Make(s, m).core);
    }
  }

  lemma ArriveSane(s: Overlapping, event: Event)
    requires Sane(s)
    ensures Kept(s.core, HandleEvent(s.core, event)) && Sane(s.(core := HandleEvent(s.core, event)))
  {
    hide RoutingSound, FlightsFit, HandleEvent;
    ArriveGood(s.core, event);
    FlightsOnward(s.core.groups, HandleEvent(s.core, event).groups, s.flights, s.core.supply);
  }

  /** A move keeps both laws exactly when it is benign, and then the next move may be judged the same way. */
  lemma MoveExactly(s: Overlapping, m: Move)
    requires Sane(s)
    ensures Kept(s.core, Make(s, m).core) <==> BenignMove(s, m)
    ensures BenignMove(s, m) ==> Sane(Make(s, m))
  {
    hide Sane, Kept, Make, May, Benign;
    if !May(s, m) {
      Idling(s, m);
    } else {
      match m
      case Finish(f, ok) => FinishSane(s, f, ok);
      case BeginCreate(_, _, _, _, _) => BeginCreateSane(s, m);
      case BeginRestore(_, _) => BeginRestoreSane(s, m);
      case BeginResubscribe(_, _, _, _, _) => BeginSane(s, m);
      case BeginCancel(_, _, _, _) => BeginSane(s, m);
      case BeginExpire(_, _, _) => BeginSane(s, m);
      case _ => LookSane(s, m);
    }
  }

  lemma Idling(s: Overlapping, m: Move)
    requires Sane(s) && !May(s, m)
    ensures Make(s, m) == s && Kept(s.core, s.core) && BenignMove(s, m)
  {
    hide RoutingSound, FlightsFit, May;
  }

  // ------------------------------------------------- reads are never held up

  ghost predicate AllReadable(groups: Groups) {
    forall gid <- groups :: |groups[gid].buffer| <= groups[gid].total
  }

  lemma FinishReadable(c: Core, flight: Flight, ok: bool)
    requires AllReadable(c.groups) && flight.gid in c.groups
    ensures AllReadable(Finished(c, flight, ok).groups)
  {
    hide Route, Invalidate, Recompute, Tokens, Benign;
  }

  lemma LookReadable(s: Overlapping, m: Move)
    requires AllReadable(s.core.groups) && May(s, m) && (m.Arrive? || m.BeginRead? || m.FinishRead?)
    ensures AllReadable(Make(s, m).core.groups)
  {
    hide ReadBegin, ReadFinish, BeingCreated, Recompute;
    match m
    case Arrive(event) =>
    case BeginRead(request, rid, now) => ReadBeginLooks(s.core, s.cfg, request, rid, now);
    case FinishRead(gid, position, limit, principal, rid, now) =>
      ReadFinishLooks(s.core, s.cfg, gid, position, limit, principal, rid, now);
  }

  lemma BeginReadable(s: Overlapping, m: Move)
    requires AllReadable(s.core.groups) && May(s, m)
    requires m.BeginCreate? || m.BeginRestore? || m.BeginResubscribe? || m.BeginCancel? || m.BeginExpire? || m.Settle?
    ensures AllReadable(Make(s, m).core.groups)
  {
    hide Route, Invalidate, Tokens, CreateError, ResubscribeError, Accepted, NewItems, Renewed, CancelBegin,
         BeingCreated;
  }

  /** In every run a buffer holds no more than the events counted, so that Readable never stops a read. */
  lemma {:induction false} AlwaysReadable(cfg: Config, moves: seq<Move>)
    ensures AllReadable(MakeAll(Idle(cfg), moves).core.groups)
  {
    hide Make, May, AllReadable;
    if moves == [] {
      assert AllReadable(EMPTY.groups) by {
        NobodyReadable();
      }
    } else {
      var init, m := moves[..|moves| - 1], moves[|moves| - 1];
      var s := MakeAll(Idle(cfg), init);
      AlwaysReadable(cfg, init);
      MakeReadable(s, m);
    }
  }

  lemma NobodyReadable()
    ensures AllReadable(EMPTY.groups)
  {
  }

  lemma MakeReadable(s: Overlapping, m: Move)
    requires AllReadable(s.core.groups)
    ensures AllReadable(Make(s, m).core.groups)
  {
    hide AllReadable, BeingCreated, Readable, Finished, Benign;
    if May(s, m) {
      match m
      case Finish(f, ok) => FinishReadable(s.core, s.flights[f], ok);
      case Arrive(_) => LookReadable(s, m);
      case BeginRead(_, _, _) => LookReadable(s, m);
      case FinishRead(_, _, _, _, _, _) => LookReadable(s, m);
      case _ => BeginReadable(s, m);
    }
  }

  // ------------------------------------------------------------- whole runs

  /**
   Over any interleaving from the start, routing stays sound and terminal groups stay as they are, throughout,
   exactly when each operation that finishes finds its group in a state it is benign for.
   */
  lemma {:induction false} OverlapExactly(cfg: Config, moves: seq<Move>)
    ensures KeptThroughout(Idle(cfg), moves) <==> AllBenign(Idle(cfg), moves)
    ensures AllBenign(Idle(cfg), moves) ==> Sane(MakeAll(Idle(cfg), moves))
  {
    hide Kept, Make, BenignMove;
    if moves != [] {
      var init, last := moves[..|moves| - 1], moves[|moves| - 1];
      OverlapExactly(cfg, init);
      if AllBenign(Idle(cfg), init) {
        MoveExactly(MakeAll(Idle(cfg), init), last);
      }
    }
  }

  /** In a run whose finishes are all benign a group that is over at any point is over from then on. */
  lemma {:induction false} BenignRunsAbsorb(cfg: Config, moves: seq<Move>, n: nat)
    requires n <= |moves| && AllBenign(Idle(cfg), moves)
    ensures Absorbs(MakeAll(Idle(cfg), moves[..n]).core.groups, MakeAll(Idle(cfg), moves).core.groups)
    decreases |moves|
  {
    hide Make, BenignMove, RoutingSound;
    if n == |moves| {
      assert moves[..n] == moves;
    } else {
      var init := moves[..|moves| - 1];
      assert init[..n] == moves[..n];
      BenignRunsAbsorb(cfg, init, n);
      OverlapExactly(cfg, moves);
    }
  }

  /** With one operation at a time on each group, every operation that finishes is benign. */
  lemma OneAtATimeIsBenign(s: System, gid: GroupId, ok: bool)
    requires Inv(s) && gid in s.ops
    ensures gid in s.core.groups && Benign(s.core, Flight(gid, s.ops[gid]), ok)
  {
    hide Inv, Tokens;
    OpInFlight(s, gid);
    CarriedRouting(s, gid);
  }

  lemma CarriedRouting(s: System, gid: GroupId)
    requires Inv(s) && gid in s.core.groups
    ensures RoutedTo(s.core, gid) <= Tokens(s.core.groups[gid].items)
  {
    hide LogsAgree, RoutingSound, TokensKept, FeedsKept, OpsFit, CursorsBounded, ReadsParked, PagesAgree;
    SoundRouting(s.core, gid);
  }
}
