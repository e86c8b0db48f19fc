/**
 When the environment keeps to its part, read off the steps alone: a subscribe that raises leaves nothing alive, and a
 group is restored only after its session was lost and before its feeds were taken again. Such a run loses no feed.
 */
module SubscriptionSessions {
  import opened Wrappers
  import opened Cursors
  import opened SubscriptionModel
  import opened SubscriptionSystem
  import opened SubscriptionLedger
  import opened SubscriptionFrames
  import opened SubscriptionSafety
  import opened SubscriptionReplace
  import opened SubscriptionRuns
  import opened SubscriptionSteps
  import opened SubscriptionFeeds

  /** The session was lost, and the library has not taken the feeds of this group since. */
  predicate Down(actions: seq<Action>, gid: GroupId) {
    actions != [] &&
      var init, last := actions[..|actions| - 1], actions[|actions| - 1];
      last.SessionLost? || (last != Accept(gid) && Down(init, gid))
  }

  /** What a subscribe that raises leaves alive, nobody has to find. */
  predicate LeavesNothing(a: Action) {
    match a
    case CreateDone(_, Raised(left, _)) => left == {}
    case ResubscribeDone(_, Raised(left, rolledBack)) => rolledBack || left == {}
    case RestoreDone(_, Raised(left, _)) => left == {}
    case _ => true
  }

  predicate Orderly(actions: seq<Action>) {
    actions == [] ||
      var init, last := actions[..|actions| - 1], actions[|actions| - 1];
      Orderly(init) && LeavesNothing(last) && (last.Restore? ==> Down(init, last.gid))
  }

  /** No feed of this group is live: neither those it carries nor those its replacement asked for. */
  ghost predicate Dead(s: System, gid: GroupId) {
    && (gid in Carried(s.core.groups) ==> Carried(s.core.groups)[gid] !! s.live)
    && (gid in Prospective(s.ops) ==> Prospective(s.ops)[gid] !! s.live)
  }

  ghost predicate Above(tokens: set<Token>, counter: nat) {
    forall t <- tokens :: t > counter
  }

  /** The tokens of a group after a step are those from before, those of its replacement, or new. */
  ghost predicate Shifts(s: System, s': System, gid: GroupId) {
    var carried, carried' := Carried(s.core.groups), Carried(s'.core.groups);
    var prospective, prospective' := Prospective(s.ops), Prospective(s'.ops);
    && (gid in carried' ==>
          || Above(carried'[gid], s.core.tokenCounter)
          || (gid in carried && carried'[gid] == carried[gid])
          || (gid in prospective && carried'[gid] == prospective[gid]))
    && (gid in prospective' ==>
          || Above(prospective'[gid], s.core.tokenCounter)
          || (gid in prospective && prospective'[gid] == prospective[gid]))
  }

  lemma SameShifts(s: System, s': System, gid: GroupId)
    requires Carried(s'.core.groups) == Carried(s.core.groups) || gid !in Carried(s'.core.groups)
    requires Prospective(s'.ops) == Prospective(s.ops) || gid !in Prospective(s'.ops)
    ensures Shifts(s, s', gid)
  {
    hide Carried, Prospective, Above;
  }

  lemma FreshAbove(tokens: set<Token>, counter: nat, counter': nat)
    requires Fresh(tokens, counter, counter')
    ensures Above(tokens, counter)
  {
  }

  lemma CreateShifts(s: System, a: Action, gid: GroupId)
    requires Inv(s) && a.Create?
    ensures Shifts(s, Next(s, a), gid) && Next(s, a).live == s.live
  {
    hide Inv, Carried, Prospective, Above, Fresh, Tokens, CreateError, Route, NewItems, Accepted, Shifts;
    var c := s.core;
    var (c', result) := CreateBegin(c, s.cfg, a.principal, a.specs, a.retention, a.now);
    if result.Ok? {
      NoRefusal(c, s.cfg, a.principal, a.specs, a.retention);
      assert a.specs[..|a.specs|] == a.specs;
      var items := NewItems(a.specs, c.tokenCounter, c.supply + 1);
      CreatedShifts(s, Next(s, a), gid, c'.groups[c.supply], a.specs);
    } else {
      SameShifts(s, Next(s, a), gid);
    }
  }

  lemma CreatedShifts(s: System, s': System, gid: GroupId, g: Group, specs: seq<Spec>)
    requires Inv(s) && g.items == NewItems(specs, s.core.tokenCounter, s.core.supply + 1)
    requires s'.core.groups == s.core.groups[s.core.supply := g]
    requires s'.ops == s.ops[s.core.supply := Creating(Tokens(g.items), false)]
    ensures Shifts(s, s', gid)
  {
    hide Inv, Carried, Prospective, Above, Fresh, Tokens, NewItems;
    var items := g.items;
    NextIdUnused(s);
    NewItemsFacts(specs, s.core.tokenCounter, s.core.supply + 1);
    FreshAbove(Tokens(items), s.core.tokenCounter, s.core.tokenCounter + |specs|);
    CarriedPut(s.core.groups, s.core.supply, g);
    OpPut(s.ops, s.core.supply, Creating(Tokens(items), false));
  }

  lemma ResubscribeShifts(s: System, a: Action, gid: GroupId)
    requires Inv(s) && a.Resubscribe? && Enabled(s, a)
    ensures Shifts(s, Next(s, a), gid) && Next(s, a).live == s.live
  {
    hide Inv, Carried, Prospective, Above, Fresh, Tokens, NewItems, Accepted, ResubscribeError;
    var (c', result) := ResubscribeBegin(s.core, s.cfg, a.owner, a.gid, a.specs, a.admin);
    if result.Ok? {
      NewItemsFacts(a.specs, s.core.tokenCounter, s.core.supply);
      FreshAbove(Tokens(result.value), s.core.tokenCounter, s.core.tokenCounter + |a.specs|);
      OpPut(s.ops, a.gid, Op.Resubscribing(result.value, false));
    }
  }

  lemma RestoreShifts(s: System, a: Action, gid: GroupId)
    requires Inv(s) && a.Restore? && Enabled(s, a)
    ensures Shifts(s, Next(s, a), gid) && Next(s, a).live == s.live
  {
    hide Inv, Carried, Prospective, Above, Fresh, Tokens, Renewed, Route, Invalidate;
    var g := s.core.groups[a.gid];
    var items := Renewed(g.items, s.core.tokenCounter);
    RenewedFacts(g.items, s.core.tokenCounter);
    FreshAbove(Tokens(items), s.core.tokenCounter, s.core.tokenCounter + |items|);
    CarriedPut(s.core.groups, a.gid, NextGeneration(g, items, GroupStatus.Starting));
    OpPut(s.ops, a.gid, Restoring(Tokens(items), false));
  }

  lemma CommitShifts(s: System, a: Action, gid: GroupId)
    requires Inv(s) && a.ResubscribeDone? && Enabled(s, a) && LeavesNothing(a)
    ensures Shifts(s, Next(s, a), gid) && Next(s, a).live <= s.live
  {
    hide Inv, Carried, Above, Tokens, Recompute, Route, Invalidate, Fits;
    var items := s.ops[a.gid].items;
    OpDrop(s.ops, a.gid);
    assert Prospective(s.ops)[a.gid] == Tokens(items);
    if a.outcome.Succeeded? {
      hide Prospective;
      CarriedPut(s.core.groups, a.gid, NextGeneration(s.core.groups[a.gid], items,
                                                      Recompute(items, GroupStatus.Starting)));
    }
  }

  /** The group keeps its tokens and its operation ends. */
  lemma EndShifts(s: System, a: Action, gid: GroupId)
    requires Inv(s) && Enabled(s, a) && LeavesNothing(a) && (a.CancelDone? || a.ExpireDone? || a.RestoreDone?)
    ensures Shifts(s, Next(s, a), gid) && Next(s, a).live <= s.live
  {
    hide Inv, Carried, Prospective, Above, Tokens, Invalidate, Fits, Shifts;
    var g, g' := s.core.groups[a.gid], Next(s, a).core.groups[a.gid];
    TokensOf(g.items, g'.items);
    CarriedSame(s.core.groups, a.gid, g');
    NotProspective(s, a.gid);
    SameShifts(s, Next(s, a), gid);
  }

  lemma CreateDoneShifts(s: System, a: Action, gid: GroupId)
    requires Inv(s) && Enabled(s, a) && LeavesNothing(a) && a.CreateDone?
    ensures Shifts(s, Next(s, a), gid) && Next(s, a).live <= s.live
  {
    hide Inv, Carried, Prospective, Above, Tokens, Fits;
    CarriedDrop(s.core.groups, a.gid);
    NotProspective(s, a.gid);
  }

  lemma NativeShifts(s: System, event: Event, gid: GroupId)
    ensures var s' := OnNative(s, event); Shifts(s, s', gid) && s'.live == s.live
  {
    hide Carried, Prospective, Above, Tokens, Shifts, Recompute;
    var target := Target(s.core, event.token);
    if target.Some? {
      var (h, i) := target.value;
      var g, g' := s.core.groups[h], Deliver(s.core.groups[h], i, event);
      TokensOf(g.items, g'.items);
      CarriedSame(s.core.groups, h, g');
    }
    SameShifts(s, OnNative(s, event), gid);
  }

  lemma QuietCarried(c: Core, c': Core)
    requires Quiet(c, c')
    ensures Carried(c'.groups) == Carried(c.groups)
  {
    hide Tokens;
  }

  lemma LookingShifts(s: System, a: Action, gid: GroupId)
    requires Enabled(s, a) && (a.Read? || a.ReadDone?)
    ensures Shifts(s, Next(s, a), gid) && Next(s, a).live == s.live
  {
    hide OnRead, OnReadDone, Carried, Prospective, Shifts, Quiet;
    match a {
      case Read(request, rid, now) => ReadLooks(s, request, rid, now);
      case ReadDone(rid, now) => ReadDoneLooks(s, rid, now);
    }
    QuietCarried(s.core, Next(s, a).core);
    SameShifts(s, Next(s, a), gid);
  }

  lemma BeginShifts(s: System, a: Action, gid: GroupId)
    requires Enabled(s, a) && (a.Cancel? || a.Expire? || a.Retry? || a.SessionLost?)
    ensures Shifts(s, Next(s, a), gid) && Next(s, a).live <= s.live
  {
    hide Carried, Prospective, Shifts, Tokens, CancelBegin, Due;
    if a.Cancel? || a.Expire? {
      if a.gid in Next(s, a).ops {
        OpPut(s.ops, a.gid, Next(s, a).ops[a.gid]);
      }
    }
    SameShifts(s, Next(s, a), gid);
  }

  lemma AcceptDead(s: System, h: GroupId, gid: GroupId)
    requires Inv(s) && Enabled(s, Accept(h)) && h != gid && Dead(s, gid)
    ensures Dead(Next(s, Accept(h)), gid)
  {
    hide Inv, Carried, Prospective, Tokens;
    OpTokensKnown(s, h);
    OpAccept(s.ops, h);
    LedgersKept(s);
  }

  lemma ShiftsDead(s: System, s': System, gid: GroupId)
    requires Inv(s) && Dead(s, gid) && Shifts(s, s', gid) && s'.live <= s.live
    ensures Dead(s', gid)
  {
    hide Inv, Carried, Prospective;
    LiveDrawn(s);
  }

  /** The feeds of a group stay dead until the library takes them. */
  lemma StaysDead(s: System, a: Action, gid: GroupId)
    requires Inv(s) && Dead(s, gid) && a != Accept(gid) && LeavesNothing(a)
    ensures Dead(Next(s, a), gid)
  {
    hide Inv, Dead, Shifts, Enabled, LeavesNothing;
    if Enabled(s, a) {
      if a.Accept? {
        AcceptDead(s, a.gid, gid);
      } else {
        Shifting(s, a, gid);
        ShiftsDead(s, Next(s, a), gid);
      }
    } else {
      assert Next(s, a) == s;
    }
  }

  lemma Shifting(s: System, a: Action, gid: GroupId)
    requires Inv(s) && Enabled(s, a) && LeavesNothing(a) && !a.Accept?
    ensures Shifts(s, Next(s, a), gid) && Next(s, a).live <= s.live
  {
    hide Inv, Shifts, Enabled, LeavesNothing, OnNative;
    match a
    case Create(_, _, _, _) => CreateShifts(s, a, gid);
    case CreateDone(_, _) => CreateDoneShifts(s, a, gid);
    case Native(event) => EnabledNative(s, event, gid);
    case Read(_, _, _) => LookingShifts(s, a, gid);
    case ReadDone(_, _) => LookingShifts(s, a, gid);
    case Resubscribe(_, _, _, _) => ResubscribeShifts(s, a, gid);
    case ResubscribeDone(_, _) => CommitShifts(s, a, gid);
    case Restore(_) => RestoreShifts(s, a, gid);
    case CancelDone(_, _) => EndShifts(s, a, gid);
    case ExpireDone(_, _) => EndShifts(s, a, gid);
    case RestoreDone(_, _) => EndShifts(s, a, gid);
    case _ => BeginShifts(s, a, gid);
  }

  lemma EnabledNative(s: System, event: Event, gid: GroupId)
    ensures Shifts(s, Next(s, Native(event)), gid) && Next(s, Native(event)).live == s.live
  {
    hide OnNative, Shifts;
    NativeShifts(s, event, gid);
  }

  /** Between a lost session and the next accept of its feeds, none of a group's feeds is live. */
  lemma {:induction false} DownIsDead(cfg: Config, actions: seq<Action>, gid: GroupId)
    requires cfg.maxBuffered >= 1 && Orderly(actions) && Down(actions, gid)
    ensures Dead(Run(Start(cfg), actions), gid)
  {
    hide Inv, Next, LeavesNothing, Dead;
    var init, last := actions[..|actions| - 1], actions[|actions| - 1];
    var s := Run(Start(cfg), init);
    if last.SessionLost? {
      LostIsDead(s, gid);
    } else {
      DownIsDead(cfg, init, gid);
      Reachable(cfg, init);
      StaysDead(s, last, gid);
    }
  }

  lemma LostIsDead(s: System, gid: GroupId)
    ensures Dead(Next(s, SessionLost), gid)
  {
    hide Carried, Prospective;
  }

  lemma OrderlyIsClean(s: System, a: Action)
    requires LeavesNothing(a) && (a.Restore? ==> Dead(s, a.gid))
    ensures Clean(s, a)
  {
    hide Tokens;
  }

  /** An orderly run is clean in every step, so that no live feed is lost track of at its end. */
  lemma {:induction false} OrderlyRunsConserve(cfg: Config, actions: seq<Action>)
    requires cfg.maxBuffered >= 1 && Orderly(actions)
    ensures CleanRun(Start(cfg), actions) && Conserved(Run(Start(cfg), actions))
  {
    hide Inv, Next, Clean, Dead, LeavesNothing, Down, Conserved, Enabled;
    if actions != [] {
      var init, last := actions[..|actions| - 1], actions[|actions| - 1];
      OrderlyRunsConserve(cfg, init);
      if last.Restore? {
        DownIsDead(cfg, init, last.gid);
      }
      OrderlyIsClean(Run(Start(cfg), init), last);
    }
    FeedsAreConserved(cfg, actions);
  }
}
