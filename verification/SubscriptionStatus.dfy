/** The status of a group and the statuses of its items. */
module SubscriptionStatus {
  import opened Wrappers
  import opened Cursors
  import opened SubscriptionModel
  import opened SubscriptionSystem
  import opened SubscriptionFrames
  import opened SubscriptionRuns
  import opened SubscriptionSteps

  ghost predicate HasActive(items: seq<Item>) {
    exists i | 0 <= i < |items| :: items[i].status.Active?
  }

  ghost predicate AllAre(items: seq<Item>, status: ItemStatus) {
    items != [] && forall i | 0 <= i < |items| :: items[i].status == status
  }

  /** The status that the items ask for; a mixture without an active item asks for none. */
  lemma RecomputeMeans(items: seq<Item>, before: GroupStatus)
    ensures Recompute(items, before) ==
              if AllAre(items, ItemStatus.Active) then GroupStatus.Active
              else if HasActive(items) then GroupStatus.Degraded
              else if AllAre(items, ItemStatus.Starting) then GroupStatus.Starting
              else if AllAre(items, ItemStatus.Failed) then GroupStatus.Failed
              else before
  {
    StatusesAre(items, ItemStatus.Active);
    StatusesAre(items, ItemStatus.Starting);
    StatusesAre(items, ItemStatus.Failed);
    if HasActive(items) {
      var i :| 0 <= i < |items| && items[i].status.Active?;
      assert items[i] in items;
    }
    if ItemStatus.Active in Statuses(items) {
      var item :| item in items && item.status.Active?;
    }
  }

  lemma StatusesAre(items: seq<Item>, status: ItemStatus)
    ensures Statuses(items) == {status} <==> AllAre(items, status)
  {
    if Statuses(items) == {status} {
      assert items != [] by {
        assert status in Statuses(items);
      }
      forall i | 0 <= i < |items| ensures items[i].status == status {
        assert items[i] in items && items[i].status in Statuses(items);
      }
    }
    if AllAre(items, status) {
      assert items[0] in items;
    }
  }

  /** The two halves of what ACTIVE and DEGRADED should mean. */
  datatype Law = ItemsShow | StatusIsTrue

  /**
   ItemsShow: a group with an active item is ACTIVE if all its items are, and DEGRADED otherwise. StatusIsTrue: a group
   that is ACTIVE has only active items, and one that is DEGRADED has an active item and another. Groups that are over
   are not spoken of.
   */
  ghost predicate Shows(law: Law, g: Group) {
    g.status.Terminal() ||
      match law
      case ItemsShow =>
        HasActive(g.items) ==>
          g.status == if AllAre(g.items, ItemStatus.Active) then GroupStatus.Active else GroupStatus.Degraded
      case StatusIsTrue =>
        && (g.status.Active? ==> AllAre(g.items, ItemStatus.Active))
        && (g.status.Degraded? ==> HasActive(g.items) && !AllAre(g.items, ItemStatus.Active))
  }

  ghost predicate AllShow(law: Law, groups: Groups) {
    forall gid <- groups :: Shows(law, groups[gid])
  }

  /**
   The event ends item i, no other item is active, and they are not all failed then: no rule applies, and the group
   keeps the status it had.
   */
  predicate Lingers(g: Group, i: nat, signal: Signal)
    requires i < |g.items|
  {
    && (signal.Failure? || signal.Terminated? || signal.Unsubscribed?)
    && (g.status.Active? || g.status.Degraded?)
    && (forall j | 0 <= j < |g.items| && j != i :: !g.items[j].status.Active?)
    && (signal.Unsubscribed? || exists j | 0 <= j < |g.items| && j != i :: !g.items[j].status.Failed?)
  }

  /** For each law the one step that breaks it: a restore that fails after an item started, or an end that lingers. */
  ghost predicate Misleads(law: Law, s: System, a: Action) {
    match law
    case ItemsShow =>
      a.RestoreDone? && Enabled(s, a) && a.outcome.Raised? && HasActive(s.core.groups[a.gid].items)
    case StatusIsTrue =>
      a.Native? && Target(s.core, a.event.token).Some? &&
      var (gid, i) := Target(s.core, a.event.token).value;
      Lingers(s.core.groups[gid], i, a.event.signal)
  }

  lemma PutShows(law: Law, groups: Groups, gid: GroupId, g: Group)
    requires AllShow(law, groups)
    ensures AllShow(law, groups[gid := g]) <==> Shows(law, g)
  {
    hide Shows;
    assert gid in groups[gid := g] && groups[gid := g][gid] == g;
  }

  lemma DropShows(law: Law, groups: Groups, gid: GroupId)
    requires AllShow(law, groups)
    ensures AllShow(law, groups - {gid})
  {
    hide Shows;
  }

  lemma RecomputedShows(law: Law, g: Group, before: GroupStatus)
    requires g.status == Recompute(g.items, before) && before.Starting?
    ensures Shows(law, g)
  {
    hide Recompute;
    RecomputeMeans(g.items, before);
  }

  lemma DeliverShows(law: Law, g: Group, i: nat, event: Event)
    requires i < |g.items| && Shows(law, g)
    ensures Shows(law, Deliver(g, i, event)) <==> !(law.StatusIsTrue? && Lingers(g, i, event.signal))
  {
    hide Recompute;
    if event.signal.Data? {
      DataShows(law, g, i, event);
    } else {
      RecomputeMeans(Deliver(g, i, event).items, g.status);
      if law.StatusIsTrue? {
        EndShows(g, i, event);
      }
    }
  }

  lemma DataShows(law: Law, g: Group, i: nat, event: Event)
    requires i < |g.items| && Shows(law, g) && event.signal.Data?
    ensures Shows(law, Deliver(g, i, event))
  {
    var g' := Deliver(g, i, event);
    assert forall j | 0 <= j < |g.items| :: g'.items[j].status == g.items[j].status;
    assert HasActive(g'.items) == HasActive(g.items) by {
      if HasActive(g.items) {
        var j :| 0 <= j < |g.items| && g.items[j].status.Active?;
        assert g'.items[j].status.Active?;
      }
    }
    assert AllAre(g'.items, ItemStatus.Active) == AllAre(g.items, ItemStatus.Active);
  }

  lemma EndShows(g: Group, i: nat, event: Event)
    requires i < |g.items| && Shows(StatusIsTrue, g) && !event.signal.Data?
    ensures Shows(StatusIsTrue, Deliver(g, i, event)) <==> !Lingers(g, i, event.signal)
  {
    hide Recompute;
    var g' := Deliver(g, i, event);
    RecomputeMeans(g'.items, g.status);
    assert forall j | 0 <= j < |g.items| && j != i :: g'.items[j] == g.items[j];
    assert g'.items[i].status != ItemStatus.Starting;
    if event.signal.Started? {
      assert HasActive(g'.items);
    } else {
      assert g'.items[i].status != ItemStatus.Active;
      assert HasActive(g'.items) <==> exists j | 0 <= j < |g.items| && j != i :: g.items[j].status.Active?;
      assert AllAre(g'.items, ItemStatus.Failed) <==>
             !event.signal.Unsubscribed? && forall j | 0 <= j < |g.items| && j != i :: g.items[j].status.Failed?;
    }
  }

  lemma NewShows(law: Law, g: Group)
    requires g.status.Starting? && forall i | 0 <= i < |g.items| :: g.items[i].status.Starting?
    ensures Shows(law, g)
  {
  }

  lemma QuietShows(law: Law, c: Core, c': Core)
    requires Quiet(c, c') && AllShow(law, c.groups)
    ensures AllShow(law, c'.groups)
  {
  }

  lemma LookingShows(law: Law, s: System, a: Action)
    requires Inv(s) && Enabled(s, a) && AllShow(law, s.core.groups) && (a.Native? || a.Read? || a.ReadDone?)
    ensures AllShow(law, Next(s, a).core.groups) <==> !Misleads(law, s, a)
  {
    hide Inv, OnRead, OnReadDone, AllShow, Shows, Quiet, Deliver, Lingers;
    match a {
      case Native(event) =>
        var target := Target(s.core, event.token);
        if target.Some? {
          var (gid, i) := target.value;
          ShowsAt(law, s.core.groups, gid);
          DeliverShows(law, s.core.groups[gid], i, event);
          PutShows(law, s.core.groups, gid, Deliver(s.core.groups[gid], i, event));
        }
      case Read(request, rid, now) =>
        ReadLooks(s, request, rid, now);
        QuietShows(law, s.core, Next(s, a).core);
      case ReadDone(rid, now) =>
        ReadDoneLooks(s, rid, now);
        QuietShows(law, s.core, Next(s, a).core);
    }
  }

  lemma ShowsAt(law: Law, groups: Groups, gid: GroupId)
    requires AllShow(law, groups) && gid in groups
    ensures Shows(law, groups[gid])
  {
  }

  lemma CreateShows(law: Law, s: System, principal: string, specs: seq<Spec>, retention: Option<RetentionRequest>,
                    now: int)
    requires AllShow(law, s.core.groups)
    ensures AllShow(law, OnCreate(s, principal, specs, retention, now).core.groups)
  {
    hide AllShow, CreateError, Accepted, Route;
    if CreateError(s.core, s.cfg, principal, specs, retention).None? && Accepted(specs, s.cfg) == |specs| {
      NoRefusal(s.core, s.cfg, principal, specs, retention);
      var items := NewItems(specs[..|specs|], s.core.tokenCounter, s.core.supply + 1);
      var g := NewGroup(s.cfg, principal, items, retention, RequestedRetention(retention).value, now);
      NewShows(law, g);
      PutShows(law, s.core.groups, s.core.supply, g);
    }
  }

  lemma EndedShows(law: Law, s: System, a: Action)
    requires Enabled(s, a) && AllShow(law, s.core.groups) && (a.CreateDone? || a.CancelDone? || a.ExpireDone?)
    ensures AllShow(law, Next(s, a).core.groups)
  {
    hide AllShow, Tokens, Invalidate, Fits, HasActive, AllAre;
    var groups, groups' := s.core.groups, Next(s, a).core.groups;
    if a.CreateDone? {
      DropShows(law, groups, a.gid);
    } else {
      PutShows(law, groups, a.gid, groups'[a.gid]);
    }
  }

  lemma ReplacedShows(law: Law, s: System, a: Action)
    requires Enabled(s, a) && AllShow(law, s.core.groups) && (a.ResubscribeDone? || a.Restore?)
    ensures AllShow(law, Next(s, a).core.groups)
  {
    hide AllShow, Shows, Tokens, Invalidate, Route, Recompute, Fits;
    var groups, groups' := s.core.groups, Next(s, a).core.groups;
    if a.Restore? {
      NewShows(law, groups'[a.gid]);
      PutShows(law, groups, a.gid, groups'[a.gid]);
    } else if a.outcome.Succeeded? {
      RecomputedShows(law, groups'[a.gid], GroupStatus.Starting);
      PutShows(law, groups, a.gid, groups'[a.gid]);
    }
  }

  lemma FailedShows(law: Law, s: System, a: Action)
    requires Enabled(s, a) && AllShow(law, s.core.groups) && a.RestoreDone?
    ensures AllShow(law, Next(s, a).core.groups) <==> !Misleads(law, s, a)
  {
    hide AllShow, Tokens, Fits, HasActive, AllAre;
    PutShows(law, s.core.groups, a.gid, s.core.groups[a.gid].(status := GroupStatus.Failed));
  }

  lemma BeginningShows(s: System, a: Action)
    requires Enabled(s, a) && (a.Resubscribe? || a.Cancel? || a.Expire? || a.Accept? || a.SessionLost? || a.Retry?)
    ensures Next(s, a).core.groups == s.core.groups
  {
    hide Enabled, ResubscribeError, NewItems, Accepted, Tokens, CancelBegin, OpTokens;
  }

  lemma MisleadingSteps(law: Law, s: System, a: Action)
    ensures Misleads(law, s, a) ==> Enabled(s, a) && (a.Native? || a.RestoreDone?)
  {
    hide Fits, HasActive;
  }

  /** A step keeps either law exactly unless it is the one that misleads about it. */
  lemma StatusFollowsItems(law: Law, s: System, a: Action)
    requires Inv(s) && AllShow(law, s.core.groups)
    ensures AllShow(law, Next(s, a).core.groups) <==> !Misleads(law, s, a)
  {
    hide Inv, Enabled, AllShow, OnCreate, Misleads;
    MisleadingSteps(law, s, a);
    if Enabled(s, a) {
      match a
      case Create(principal, specs, retention, now) => CreateShows(law, s, principal, specs, retention, now);
      case Native(_) => LookingShows(law, s, a);
      case Read(_, _, _) => LookingShows(law, s, a);
      case ReadDone(_, _) => LookingShows(law, s, a);
      case Resubscribe(_, _, _, _) => BeginningShows(s, a);
      case Cancel(_, _, _) => BeginningShows(s, a);
      case Expire(_, _) => BeginningShows(s, a);
      case Accept(_) => BeginningShows(s, a);
      case SessionLost => BeginningShows(s, a);
      case Retry(_, _) => BeginningShows(s, a);
      case Restore(_) => ReplacedShows(law, s, a);
      case ResubscribeDone(_, _) => ReplacedShows(law, s, a);
      case RestoreDone(_, _) => FailedShows(law, s, a);
      case _ => EndedShows(law, s, a);
    }
  }

  ghost predicate NeverMisleads(law: Law, s: System, actions: seq<Action>) {
    actions == [] ||
      var init, last := actions[..|actions| - 1], actions[|actions| - 1];
      NeverMisleads(law, s, init) && !Misleads(law, Run(s, init), last)
  }

  ghost predicate AlwaysShows(law: Law, s: System, actions: seq<Action>) {
    (actions == [] || AlwaysShows(law, s, actions[..|actions| - 1])) && AllShow(law, Run(s, actions).core.groups)
  }

  /** All along a run from the start, either law holds exactly if no step misleads about it. */
  lemma {:induction false} StatusesFollow(law: Law, cfg: Config, actions: seq<Action>)
    requires cfg.maxBuffered >= 1
    ensures AlwaysShows(law, Start(cfg), actions) <==> NeverMisleads(law, Start(cfg), actions)
  {
    hide Inv, Next, Misleads;
    if actions != [] {
      var init, last := actions[..|actions| - 1], actions[|actions| - 1];
      StatusesFollow(law, cfg, init);
      Reachable(cfg, init);
      if AlwaysShows(law, Start(cfg), init) {
        StatusFollowsItems(law, Run(Start(cfg), init), last);
      }
    }
  }
}
