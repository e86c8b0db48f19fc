/**
 What one step, and a run of steps, does to the groups, to their generations and to the tokens waiting to be
 unsubscribed.
 */
module SubscriptionSteps {
  import opened Wrappers
  import opened Cursors
  import opened SubscriptionModel
  import opened SubscriptionSystem
  import opened SubscriptionFrames
  import opened SubscriptionSafety
  import opened SubscriptionRuns

  /** The step starts a new generation of this group. */
  ghost predicate Replaces(s: System, a: Action, gid: GroupId) {
    Enabled(s, a) && (a == Restore(gid) || (a.ResubscribeDone? && a.gid == gid && a.outcome.Succeeded?))
  }

  /** The step takes this group out of the registry. */
  ghost predicate Removes(s: System, a: Action, gid: GroupId) {
    Enabled(s, a) && a.CreateDone? && a.gid == gid && a.outcome.Raised?
  }

  /** The tokens the step leaves to be unsubscribed later. */
  ghost function Adds(s: System, a: Action): set<Token> {
    if !Enabled(s, a) then {}
    else
      match a
      case ResubscribeDone(gid, Succeeded) => Tokens(s.core.groups[gid].items)
      case CancelDone(gid, ok) => if ok then {} else s.ops[gid].tokens
      case ExpireDone(gid, ok) => if ok then {} else s.ops[gid].tokens
      case _ => {}
  }

  ghost function Settles(s: System, a: Action): set<Token> {
    if Enabled(s, a) && a.Retry? && a.ok then {a.token} else {}
  }

  /** The groups there are, and their generations. */
  function Generations(groups: Groups): map<GroupId, nat> {
    map gid <- groups :: groups[gid].generation
  }

  // ---------------------------------------------------- stretch by stretch

  lemma GenerationsPut(groups: Groups, gid: GroupId, g: Group)
    ensures Generations(groups[gid := g]) == Generations(groups)[gid := g.generation]
    ensures gid in groups && g.generation == groups[gid].generation ==>
            Generations(groups[gid := g]) == Generations(groups)
    ensures Generations(groups - {gid}) == Generations(groups) - {gid}
  {
  }

  lemma NativeStep(c: Core, event: Event)
    ensures var c' := HandleEvent(c, event); Generations(c'.groups) == Generations(c.groups) && c'.pending == c.pending
  {
    hide Generations, Deliver;
    if Target(c, event.token).Some? {
      var (gid, i) := Target(c, event.token).value;
      DeliverStep(c.groups[gid], i, event);
      GenerationsPut(c.groups, gid, Deliver(c.groups[gid], i, event));
    }
  }

  lemma DeliverStep(g: Group, i: nat, event: Event)
    requires i < |g.items|
    ensures Deliver(g, i, event).generation == g.generation
  {
  }

  lemma CreateStep(c: Core, cfg: Config, principal: string, specs: seq<Spec>, request: Option<RetentionRequest>,
                   now: int)
    ensures var (c', result) := CreateBegin(c, cfg, principal, specs, request, now);
            && c'.pending == c.pending
            && Generations(c'.groups) == if result.Ok? then Generations(c.groups)[c.supply := 1]
                                         else Generations(c.groups)
  {
    hide Generations, Route, NewItems, CreateError, Accepted;
    if CreateError(c, cfg, principal, specs, request).None? && Accepted(specs, cfg) == |specs| {
      NoRefusal(c, cfg, principal, specs, request);
      var items := NewItems(specs[..|specs|], c.tokenCounter, c.supply + 1);
      GenerationsPut(c.groups, c.supply, NewGroup(cfg, principal, items, request, RequestedRetention(request).value,
                                                  now));
    }
  }

  lemma NoRefusal(c: Core, cfg: Config, principal: string, specs: seq<Spec>, request: Option<RetentionRequest>)
    requires CreateError(c, cfg, principal, specs, request).None?
    ensures RequestedRetention(request).Some?
  {
  }

  // ---------------------------------------------------------------- one step

  /**
   The generations after a step: one more for a replaced group, none for a removed one, and new groups start at one.
   */
  ghost predicate Steps(s: System, a: Action, s': System) {
    && s'.core.pending == s.core.pending + Adds(s, a) - Settles(s, a)
    && (forall gid <- s.core.groups ::
          && (gid in s'.core.groups <==> !Removes(s, a, gid))
          && (gid in s'.core.groups ==>
                s'.core.groups[gid].generation == s.core.groups[gid].generation + if Replaces(s, a, gid) then 1 else 0))
  }

  lemma SameSteps(s: System, a: Action, s': System)
    requires Generations(s'.core.groups) == Generations(s.core.groups) && s'.core.pending == s.core.pending
    requires !a.Restore? && !a.ResubscribeDone? && !a.CreateDone? && !a.CancelDone? && !a.ExpireDone? && !a.Retry?
    ensures Steps(s, a, s')
  {
    hide Enabled;
    forall gid <- s.core.groups
      ensures gid in s'.core.groups && s'.core.groups[gid].generation == s.core.groups[gid].generation {
      assert gid in Generations(s.core.groups) && gid in Generations(s'.core.groups);
      assert Generations(s'.core.groups)[gid] == Generations(s.core.groups)[gid];
    }
  }

  lemma DisabledSteps(s: System, a: Action)
    requires !Enabled(s, a)
    ensures Steps(s, a, Next(s, a))
  {
    hide Enabled;
  }

  lemma CreatingSteps(s: System, a: Action)
    requires Inv(s) && a.Create?
    ensures Steps(s, a, Next(s, a))
  {
    hide Inv, CreateBegin, Generations, Tokens, NewItems;
    NextIdUnused(s);
    CreateStep(s.core, s.cfg, a.principal, a.specs, a.retention, a.now);
    var s' := Next(s, a);
    forall gid <- s.core.groups
      ensures gid in s'.core.groups && s'.core.groups[gid].generation == s.core.groups[gid].generation {
      GenerationOf(s.core.groups, gid);
      GenerationOf(s'.core.groups, gid);
    }
  }

  lemma GenerationOf(groups: Groups, gid: GroupId)
    ensures gid in Generations(groups) <==> gid in groups
    ensures gid in groups ==> Generations(groups)[gid] == groups[gid].generation
  {
  }

  lemma QuietSteps(c: Core, c': Core)
    requires Quiet(c, c')
    ensures Generations(c'.groups) == Generations(c.groups)
  {
  }

  lemma LookingSteps(s: System, a: Action)
    requires Inv(s) && Enabled(s, a) && (a.Native? || a.Read? || a.ReadDone?)
    ensures Steps(s, a, Next(s, a))
  {
    hide Inv, OnRead, OnReadDone, HandleEvent, Generations, Steps, Target, Quiet;
    match a {
      case Native(event) => NativeStep(s.core, event);
      case Read(request, rid, now) =>
        ReadLooks(s, request, rid, now);
        QuietSteps(s.core, OnRead(s, request, rid, now).core);
      case ReadDone(rid, now) =>
        ReadDoneLooks(s, rid, now);
        QuietSteps(s.core, OnReadDone(s, rid, now).core);
    }
    SameSteps(s, a, Next(s, a));
  }

  lemma BeginningSteps(s: System, a: Action)
    requires Enabled(s, a)
    requires a.Resubscribe? || a.Cancel? || a.Expire? || a.Accept? || a.SessionLost?
    ensures Steps(s, a, Next(s, a))
  {
    hide Enabled, ResubscribeError, NewItems, Accepted, Tokens, CancelBegin, OpTokens, Steps, Generations;
    SameSteps(s, a, Next(s, a));
  }

  lemma EndingSteps(s: System, a: Action)
    requires Enabled(s, a) && (a.CreateDone? || a.RestoreDone? || a.Retry?)
    ensures Steps(s, a, Next(s, a))
  {
    hide Tokens, Invalidate, WithStatus, Fits;
  }

  lemma RetiringSteps(s: System, a: Action)
    requires Enabled(s, a) && (a.CancelDone? || a.ExpireDone?)
    ensures Steps(s, a, Next(s, a))
  {
    hide Tokens, Invalidate, WithStatus, Fits;
  }

  lemma ReplacingSteps(s: System, a: Action)
    requires Enabled(s, a) && (a.ResubscribeDone? || a.Restore?)
    ensures Steps(s, a, Next(s, a))
  {
    hide Tokens, Invalidate, Route, Renewed, Recompute, Fits;
  }

  lemma NextSteps(s: System, a: Action)
    requires Inv(s)
    ensures Steps(s, a, Next(s, a))
  {
    hide Inv, Enabled, Next, Steps;
    if !Enabled(s, a) {
      DisabledSteps(s, a);
    } else {
      match a
      case Create(_, _, _, _) => CreatingSteps(s, a);
      case Native(_) => LookingSteps(s, a);
      case Read(_, _, _) => LookingSteps(s, a);
      case ReadDone(_, _) => LookingSteps(s, a);
      case ResubscribeDone(_, _) => ReplacingSteps(s, a);
      case Restore(_) => ReplacingSteps(s, a);
      case CreateDone(_, _) => EndingSteps(s, a);
      case CancelDone(_, _) => RetiringSteps(s, a);
      case ExpireDone(_, _) => RetiringSteps(s, a);
      case RestoreDone(_, _) => EndingSteps(s, a);
      case Retry(_, _) => EndingSteps(s, a);
      case _ => BeginningSteps(s, a);
    }
  }

  // ---------------------------------------------------------------- whole runs

  /** How many of the steps of a run start a new generation of this group. */
  ghost function Replacements(s: System, actions: seq<Action>, gid: GroupId): nat {
    if actions == [] then 0
    else
      var init, last := actions[..|actions| - 1], actions[|actions| - 1];
      Replacements(s, init, gid) + if Replaces(Run(s, init), last, gid) then 1 else 0
  }

  /** A generation is counted up by exactly the replacements and restores there were. */
  lemma {:induction false} GenerationsCount(s: System, actions: seq<Action>, gid: GroupId)
    requires Inv(s) && gid in s.core.groups && gid in Run(s, actions).core.groups
    ensures Run(s, actions).core.groups[gid].generation == s.core.groups[gid].generation + Replacements(s, actions, gid)
  {
    hide Inv, Next, Replaces, Removes, Adds, Settles;
    if actions != [] {
      var init, last := actions[..|actions| - 1], actions[|actions| - 1];
      StayedThere(s, init, last, gid);
      GenerationsCount(s, init, gid);
      RunKeeps(s, init);
      NextSteps(Run(s, init), last);
    }
  }

  /** A group that is there now was there all the time. */
  lemma StayedThere(s: System, init: seq<Action>, last: Action, gid: GroupId)
    requires Inv(s) && gid in s.core.groups && gid in Next(Run(s, init), last).core.groups
    ensures gid in Run(s, init).core.groups
  {
    hide Inv, Next, Run;
    GroupInv(s, gid);
    RunOnward(s, init);
    RunKeeps(s, init);
    NextOnward(Run(s, init), last);
  }

  /** A terminal group is never taken out of the registry. */
  lemma TerminalIsNotRemoved(s: System, a: Action, gid: GroupId)
    requires Inv(s) && gid in s.core.groups && s.core.groups[gid].status.Terminal()
    ensures !Removes(s, a, gid)
  {
    hide LogsAgree, RoutingSound, TokensKept, FeedsKept, CursorsBounded, ReadsParked, PagesAgree;
    assert gid in s.ops ==> OpFits(s.core.groups, s.core.tokenMap.Keys, gid, s.ops[gid]);
  }

  lemma {:induction false} TerminalStays(s: System, actions: seq<Action>, gid: GroupId)
    requires Inv(s) && gid in s.core.groups && s.core.groups[gid].status.Terminal()
    ensures gid in Run(s, actions).core.groups && Run(s, actions).core.groups[gid].status.Terminal()
  {
    hide Inv, Next, Removes, Replaces, Adds, Settles;
    if actions != [] {
      var init, last := actions[..|actions| - 1], actions[|actions| - 1];
      TerminalStays(s, init, gid);
      RunKeeps(s, init);
      TerminalIsNotRemoved(Run(s, init), last, gid);
      NextSteps(Run(s, init), last);
      NextOnward(Run(s, init), last);
    }
  }

  lemma StoredAsIssued(s: System, id: CursorId)
    requires Inv(s)
    ensures id in s.core.cursors.entries ==> id in s.issued && s.issued[id] == s.core.cursors.entries[id]
    ensures id in s.issued ==> id < s.core.cursors.next
  {
    hide LogsAgree, RoutingSound, TokensKept, FeedsKept, OpsFit, ReadsParked, PagesAgree;
  }

  // ------------------------------------------------------- pending unsubscribes

  /** The tokens the steps of a run leave to be unsubscribed later. */
  ghost function AddsInAll(s: System, actions: seq<Action>): set<Token> {
    if actions == [] then {}
    else
      var init, last := actions[..|actions| - 1], actions[|actions| - 1];
      AddsInAll(s, init) + Adds(Run(s, init), last)
  }

  /**
   A token whose unsubscribe is retried with success, at any point of a run, waits at its end only if it was added in
   it.
   */
  lemma {:induction false} RetriedIsSettled(s: System, actions: seq<Action>, t: Token)
    requires Inv(s) && Retry(t, true) in actions
    ensures t in Run(s, actions).core.pending ==> t in AddsInAll(s, actions)
  {
    hide Inv, Next, Replaces, Removes, Adds, Settles, Enabled;
    var init, last := actions[..|actions| - 1], actions[|actions| - 1];
    RunKeeps(s, init);
    NextSteps(Run(s, init), last);
    if last == Retry(t, true) {
      SettlesAdds(Run(s, init), t);
    } else {
      assert actions == init + [last];
      RetriedIsSettled(s, init, t);
    }
  }

  lemma SettlesAdds(s: System, t: Token)
    ensures Settles(s, Retry(t, true)) == s.core.pending * {t} && Adds(s, Retry(t, true)) == {}
  {
  }

  lemma {:induction false} PendingIsAdded(s: System, actions: seq<Action>, t: Token)
    requires Inv(s) && t in Run(s, actions).core.pending
    ensures t in s.core.pending || t in AddsInAll(s, actions)
  {
    hide Inv, Next, Replaces, Removes, Adds, Settles;
    if actions != [] {
      var init, last := actions[..|actions| - 1], actions[|actions| - 1];
      RunKeeps(s, init);
      NextSteps(Run(s, init), last);
      if t in Run(s, init).core.pending {
        PendingIsAdded(s, init, t);
      }
    }
  }

  /**
   A retry pass in which every unsubscribe succeeds, with anything in between: what waits at its end was added while
   it was under way, by a replacement or by a cancel or an expiry that failed to unsubscribe. Nothing else is left.
   */
  lemma RetryPassEmpties(s: System, pass: seq<Action>)
    requires Inv(s) && forall t <- s.core.pending :: Retry(t, true) in pass
    ensures Run(s, pass).core.pending <= AddsInAll(s, pass)
  {
    hide Inv, Run, AddsInAll;
    forall t <- Run(s, pass).core.pending ensures t in AddsInAll(s, pass) {
      PendingIsAdded(s, pass, t);
      if t in s.core.pending {
        RetriedIsSettled(s, pass, t);
      }
    }
  }
}
