/**
 A replacement that fails leaves no trace: whatever happened while it was in flight has exactly the
 effect it would have had without it, and only the number supplies have advanced.
 */
module SubscriptionRollback {
  import opened Wrappers
  import opened Cursors
  import opened SubscriptionModel
  import opened SubscriptionSystem
  import opened SubscriptionFrames
  import opened SubscriptionLedger
  import opened SubscriptionSafety
  import opened SubscriptionReplace
  import opened SubscriptionRuns
  import opened SubscriptionSteps

  /** The same system with n more numbers drawn. */
  ghost function Ahead(s: System, n: nat): System {
    s.(core := Drawn(s.core, n))
  }

  ghost function Drawn(c: Core, n: nat): Core {
    c.(tokenCounter := c.tokenCounter + n, supply := c.supply + n)
  }

  /** The same system with n more numbers drawn and a replacement of gid in flight. */
  ghost function Shadow(s: System, n: nat, gid: GroupId, op: Op): System {
    Ahead(s, n).(ops := s.ops[gid := op])
  }

  /** Anything but an operation on this group. */
  predicate Bystander(a: Action, gid: GroupId) {
    match a
    case CreateDone(h, _) => h != gid
    case Resubscribe(_, h, _, _) => h != gid
    case ResubscribeDone(h, _) => h != gid
    case Cancel(_, h, _) => h != gid
    case CancelDone(h, _) => h != gid
    case Expire(h, _) => h != gid
    case ExpireDone(h, _) => h != gid
    case Restore(h) => h != gid
    case RestoreDone(h, _) => h != gid
    case Accept(h) => h != gid
    case _ => true
  }

  /** The actions that draw numbers. */
  predicate Draws(a: Action) {
    a.Create? || a.Resubscribe? || a.Restore?
  }

  lemma OpsCommute(ops: map<GroupId, Op>, gid: GroupId, op: Op, h: GroupId, other: Op)
    requires h != gid
    ensures ops[gid := op] - {h} == (ops - {h})[gid := op]
    ensures ops[gid := op][h := other] == ops[h := other][gid := op]
  {
  }

  lemma ShadowEnabled(s: System, a: Action, n: nat, gid: GroupId, op: Op)
    requires gid !in s.ops && op.Resubscribing? && Bystander(a, gid)
    ensures Enabled(Shadow(s, n, gid, op), a) <==> Enabled(s, a)
  {
    hide Fits, Tokens;
  }

  lemma DrawnTarget(c: Core, n: nat, token: Token)
    ensures Target(Drawn(c, n), token) == Target(c, token)
  {
  }

  lemma DrawnEvent(c: Core, n: nat, event: Event)
    ensures HandleEvent(Drawn(c, n), event) == Drawn(HandleEvent(c, event), n)
  {
    hide Deliver, Target;
    DrawnTarget(c, n, event.token);
  }

  lemma ShadowNative(s: System, n: nat, gid: GroupId, op: Op, event: Event)
    ensures OnNative(Shadow(s, n, gid, op), event) == Shadow(OnNative(s, event), n, gid, op)
  {
    hide HandleEvent, Target;
    DrawnTarget(s.core, n, event.token);
    DrawnEvent(s.core, n, event);
  }

  lemma DrawnServe(c: Core, n: nat, cfg: Config, gid: GroupId, position: Position, limit: int, principal: string,
                   now: int)
    requires gid in c.groups && |c.groups[gid].buffer| <= c.groups[gid].total
    ensures Serve(Drawn(c, n), cfg, gid, position, limit, principal, now) ==
              (Drawn(Serve(c, cfg, gid, position, limit, principal, now).0, n),
               Serve(c, cfg, gid, position, limit, principal, now).1)
  {
    hide PageFrom, NextOffset, Insert, Forget;
  }

  lemma DrawnRead(c: Core, n: nat, cfg: Config, request: ReadRequest, rid: ReadId, now: int)
    requires request.subscription in c.groups ==>
               |c.groups[request.subscription].buffer| <= c.groups[request.subscription].total
    ensures ReadBegin(Drawn(c, n), cfg, request, rid, now) ==
              (Drawn(ReadBegin(c, cfg, request, rid, now).0, n), ReadBegin(c, cfg, request, rid, now).1)
  {
    hide Presentable, AfterResolve, Serve, ReadError;
    DrawnReadError(c, n, request);
    if ReadError(c, request).None? {
      ReadAllowed(c, request);
    }
    if ReadError(c, request).None? && request.mode.Changes? {
      var gid := request.subscription;
      if request.cursor.None? {
        DrawnServe(c, n, cfg, gid, Position(None, 0), request.limit, request.principal, now);
      } else if CursorAccepted(c, request, request.cursor.value, now) {
        var id := request.cursor.value;
        EntryPresent(c, id, request.principal, now);
        var c1 := c.(cursors := AfterResolve(c.cursors, id, request.principal, now));
        assert Drawn(c, n).(cursors := AfterResolve(c.cursors, id, request.principal, now)) == Drawn(c1, n);
        DrawnServe(c1, n, cfg, gid, Position(Some(c.cursors.entries[id]), c.cursors.entries[id].offset),
                   request.limit, request.principal, now);
      }
    }
  }

  lemma EntryPresent(c: Core, id: CursorId, principal: string, now: int)
    requires Presentable(c.cursors, id, principal, now)
    ensures id in c.cursors.entries
  {
  }

  lemma ReadAllowed(c: Core, request: ReadRequest)
    requires ReadError(c, request).None?
    ensures request.subscription in c.groups && !request.mode.OtherMode?
  {
  }

  lemma DrawnReadError(c: Core, n: nat, request: ReadRequest)
    ensures ReadError(Drawn(c, n), request) == ReadError(c, request)
  {
  }

  lemma DrawnSuccessor(c: Core, n: nat, cfg: Config, now: int)
    ensures forall gid, position: Position, next: nat, principal: string | gid in c.groups ::
              Successor(Drawn(c, n), cfg, gid, position, next, principal, now) ==
                Successor(c, cfg, gid, position, next, principal, now)
  {
    hide Insert, Forget;
  }

  lemma ShadowRead(s: System, n: nat, gid: GroupId, op: Op, request: ReadRequest, rid: ReadId, now: int)
    requires rid !in s.parked && !(request.subscription in s.ops && s.ops[request.subscription].Creating?)
    requires request.subscription in s.core.groups ==>
               |s.core.groups[request.subscription].buffer| <= s.core.groups[request.subscription].total
    ensures OnRead(Shadow(s, n, gid, op), request, rid, now) == Shadow(OnRead(s, request, rid, now), n, gid, op)
  {
    hide ReadBegin, Successor, NextOffset;
    DrawnSuccessor(s.core, n, s.cfg, now);
    DrawnRead(s.core, n, s.cfg, request, rid, now);
    PageIsOfGroup(s.core, s.cfg, request, rid, now);
  }

  lemma ShadowReadDone(s: System, n: nat, gid: GroupId, op: Op, rid: ReadId, now: int)
    requires rid in s.parked && s.core.longPolls > 0 && s.parked[rid].gid in s.core.groups
    requires |s.core.groups[s.parked[rid].gid].buffer| <= s.core.groups[s.parked[rid].gid].total
    ensures OnReadDone(Shadow(s, n, gid, op), rid, now) == Shadow(OnReadDone(s, rid, now), n, gid, op)
  {
    hide PageFrom, NextOffset, Insert, Forget;
  }

  lemma ShadowCreateDone(s: System, h: GroupId, outcome: Outcome, n: nat, gid: GroupId, op: Op)
    requires gid !in s.ops && h != gid && h in s.ops && s.ops[h].Creating?
    ensures OnCreateDone(Shadow(s, n, gid, op), h, outcome) == Shadow(OnCreateDone(s, h, outcome), n, gid, op)
  {
    OpsCommute(s.ops, gid, op, h, op);
  }

  lemma ShadowCancelDone(s: System, h: GroupId, ok: bool, n: nat, gid: GroupId, op: Op)
    requires gid !in s.ops && h != gid && h in s.core.groups && h in s.ops && s.ops[h].Cancelling?
    ensures OnCancelDone(Shadow(s, n, gid, op), h, ok) == Shadow(OnCancelDone(s, h, ok), n, gid, op)
  {
    hide WithStatus, Invalidate;
    OpsCommute(s.ops, gid, op, h, op);
  }

  lemma ShadowExpireDone(s: System, h: GroupId, ok: bool, n: nat, gid: GroupId, op: Op)
    requires gid !in s.ops && h != gid && h in s.core.groups && h in s.ops && s.ops[h].Expiring?
    ensures OnExpireDone(Shadow(s, n, gid, op), h, ok) == Shadow(OnExpireDone(s, h, ok), n, gid, op)
  {
    hide WithStatus, Invalidate;
    OpsCommute(s.ops, gid, op, h, op);
  }

  lemma ShadowRestoreDone(s: System, h: GroupId, outcome: Outcome, n: nat, gid: GroupId, op: Op)
    requires gid !in s.ops && h != gid && h in s.core.groups && h in s.ops && s.ops[h].Restoring?
    ensures OnRestoreDone(Shadow(s, n, gid, op), h, outcome) == Shadow(OnRestoreDone(s, h, outcome), n, gid, op)
  {
    OpsCommute(s.ops, gid, op, h, op);
  }

  lemma ShadowReplaced(s: System, h: GroupId, outcome: Outcome, n: nat, gid: GroupId, op: Op)
    requires gid !in s.ops && h != gid && h in s.core.groups && h in s.ops && s.ops[h].Resubscribing?
    ensures OnResubscribeDone(Shadow(s, n, gid, op), h, outcome) == Shadow(OnResubscribeDone(s, h, outcome), n, gid, op)
  {
    hide Tokens, Recompute, Invalidate, Route;
    OpsCommute(s.ops, gid, op, h, op);
  }

  lemma DrawnCancel(c: Core, n: nat, principal: string, gid: GroupId, admin: bool)
    ensures CancelBegin(Drawn(c, n), principal, gid, admin) == CancelBegin(c, principal, gid, admin)
  {
    hide Tokens;
  }

  lemma ShadowCancel(s: System, principal: string, h: GroupId, admin: bool, n: nat, gid: GroupId, op: Op)
    requires gid !in s.ops && h != gid
    ensures OnCancel(Shadow(s, n, gid, op), principal, h, admin) == Shadow(OnCancel(s, principal, h, admin), n, gid, op)
  {
    hide Tokens, CancelBegin;
    DrawnCancel(s.core, n, principal, h, admin);
    var result := CancelBegin(s.core, principal, h, admin);
    if result.Ok? && result.value.Some? {
      OpsCommute(s.ops, gid, op, h, Op.Cancelling(result.value.value));
    }
  }

  lemma ShadowBegin(s: System, a: Action, n: nat, gid: GroupId, op: Op)
    requires gid !in s.ops && Bystander(a, gid) && Enabled(s, a) && Enabled(Shadow(s, n, gid, op), a)
    requires a.Expire? || a.Accept? || a.Retry? || a.SessionLost?
    ensures Next(Shadow(s, n, gid, op), a) == Shadow(Next(s, a), n, gid, op)
  {
    hide Tokens;
    match a
    case Expire(h, _) => OpsCommute(s.ops, gid, op, h, Expiring(Tokens(s.core.groups[h].items)));
    case Accept(h) => OpsCommute(s.ops, gid, op, h, s.ops[h].(accepted := true));
    case _ =>
  }

  lemma NoneDrawn(s: System, gid: GroupId, op: Op)
    ensures Ahead(s, 0) == s && Shadow(s, 0, gid, op) == s.(ops := s.ops[gid := op])
  {
  }

  lemma ShadowCreate(s: System, a: Action, gid: GroupId, op: Op)
    requires gid < s.core.supply && a.Create?
    ensures Next(Shadow(s, 0, gid, op), a) == Shadow(Next(s, a), 0, gid, op)
  {
    hide CreateBegin, Tokens, NewItems;
    NoneDrawn(s, gid, op);
    NewGroupIsNext(s.core, s.cfg, a);
    var result := CreateBegin(s.core, s.cfg, a.principal, a.specs, a.retention, a.now).1;
    if result.Ok? {
      OpsCommute(s.ops, gid, op, result.value, Creating(Tokens(NewItems(a.specs, s.core.tokenCounter,
                                                                        result.value + 1)), false));
    }
    NoneDrawn(Next(s, a), gid, op);
  }

  lemma NewGroupIsNext(c: Core, cfg: Config, a: Action)
    requires a.Create?
    ensures var result := CreateBegin(c, cfg, a.principal, a.specs, a.retention, a.now).1;
            result.Ok? ==> result.value == c.supply
  {
    hide Route, CreateError;
  }

  lemma ShadowDraws(s: System, a: Action, gid: GroupId, op: Op)
    requires gid !in s.ops && Bystander(a, gid) && (a.Resubscribe? || a.Restore?)
    requires Enabled(s, a) && Enabled(Shadow(s, 0, gid, op), a)
    ensures Next(Shadow(s, 0, gid, op), a) == Shadow(Next(s, a), 0, gid, op)
  {
    hide ResubscribeBegin, RestoreBegin, Tokens;
    NoneDrawn(s, gid, op);
    match a
    case Resubscribe(principal, h, specs, admin) =>
      var result := ResubscribeBegin(s.core, s.cfg, principal, h, specs, admin).1;
      if result.Ok? {
        OpsCommute(s.ops, gid, op, h, Op.Resubscribing(result.value, false));
      }
    case Restore(h) =>
      RestoredIsThere(s.core, h);
      OpsCommute(s.ops, gid, op, h, Restoring(Tokens(RestoreBegin(s.core, h).groups[h].items), false));
  }

  lemma RestoredIsThere(c: Core, gid: GroupId)
    requires gid in c.groups
    ensures gid in RestoreBegin(c, gid).groups
  {
  }

  /** A bystander does not notice the replacement in flight, nor, unless it draws some, that numbers are gone. */
  lemma ShadowStep(s: System, a: Action, n: nat, gid: GroupId, op: Op)
    requires gid !in s.ops && op.Resubscribing? && Bystander(a, gid) && gid < s.core.supply
    requires Draws(a) ==> n == 0
    ensures Next(Shadow(s, n, gid, op), a) == Shadow(Next(s, a), n, gid, op)
  {
    hide OnNative, OnRead, OnReadDone, OnCreate, OnCreateDone, OnResubscribe, OnResubscribeDone, OnCancelDone,
         OnExpireDone, OnRestore, OnRestoreDone, OnCancel, RetryFinish, Tokens, Shadow, Due, Fits;
    ShadowEnabled(s, a, n, gid, op);
    if a.Create? {
      ShadowCreate(s, a, gid, op);
    } else if Enabled(s, a) {
      match a
      case Native(event) => ShadowNative(s, n, gid, op, event);
      case Read(request, rid, now) => ShadowRead(s, n, gid, op, request, rid, now);
      case ReadDone(rid, now) => ShadowReadDone(s, n, gid, op, rid, now);
      case Resubscribe(_, _, _, _) => ShadowDraws(s, a, gid, op);
      case ResubscribeDone(h, outcome) => ShadowReplaced(s, h, outcome, n, gid, op);
      case CreateDone(h, outcome) => ShadowCreateDone(s, h, outcome, n, gid, op);
      case CancelDone(h, ok) => ShadowCancelDone(s, h, ok, n, gid, op);
      case ExpireDone(h, ok) => ShadowExpireDone(s, h, ok, n, gid, op);
      case Restore(_) => ShadowDraws(s, a, gid, op);
      case RestoreDone(h, outcome) => ShadowRestoreDone(s, h, outcome, n, gid, op);
      case Cancel(principal, h, admin) => ShadowCancel(s, principal, h, admin, n, gid, op);
      case _ => ShadowBegin(s, a, n, gid, op);
    }
  }

  /** A bystander does not start an operation on this group, and ids are only drawn. */
  lemma BystanderLeavesOps(s: System, a: Action, gid: GroupId)
    requires gid !in s.ops && Bystander(a, gid) && gid < s.core.supply
    ensures gid !in Next(s, a).ops && gid < Next(s, a).core.supply
  {
    hide Enabled, OnRead, OnReadDone, OnNative, OnCreate, OnResubscribe, OnRestore, Tokens, Route, Recompute,
         Invalidate, WithStatus;
    if Enabled(s, a) {
      match a
      case Create(_, _, _, _) => DrawingLeavesOps(s, a, gid);
      case Resubscribe(_, _, _, _) => DrawingLeavesOps(s, a, gid);
      case Restore(_) => DrawingLeavesOps(s, a, gid);
      case Native(_) => LookingLeavesOps(s, a);
      case Read(_, _, _) => LookingLeavesOps(s, a);
      case ReadDone(_, _) => LookingLeavesOps(s, a);
      case _ =>
    }
  }

  lemma DrawingLeavesOps(s: System, a: Action, gid: GroupId)
    requires gid !in s.ops && Bystander(a, gid) && gid < s.core.supply && Draws(a) && Enabled(s, a)
    ensures gid !in Next(s, a).ops && gid < Next(s, a).core.supply
  {
    hide Tokens, OnResubscribe, OnRestore, OnCreate;
    match a
    case Create(principal, specs, retention, now) => CreateLeavesOps(s, principal, specs, retention, now);
    case Resubscribe(principal, other, specs, admin) => ResubscribeLeavesOps(s, principal, other, specs, admin);
    case Restore(other) => RestoreLeavesOps(s, other);
  }

  lemma CreateLeavesOps(s: System, principal: string, specs: seq<Spec>, retention: Option<RetentionRequest>, now: int)
    ensures var s' := OnCreate(s, principal, specs, retention, now);
            s'.ops.Keys <= s.ops.Keys + {s.core.supply} && s.core.supply <= s'.core.supply
  {
    hide Tokens, Route, CreateError, NewItems, NewGroup;
  }

  lemma ResubscribeLeavesOps(s: System, principal: string, gid: GroupId, specs: seq<Spec>, admin: bool)
    ensures var s' := OnResubscribe(s, principal, gid, specs, admin);
            s'.ops.Keys <= s.ops.Keys + {gid} && s.core.supply <= s'.core.supply
  {
    hide ResubscribeError, NewItems;
  }

  lemma RestoreLeavesOps(s: System, gid: GroupId)
    requires gid in s.core.groups
    ensures var s' := OnRestore(s, gid); s'.ops.Keys == s.ops.Keys + {gid} && s.core.supply == s'.core.supply
  {
    hide Tokens, Route, Invalidate, Renewed;
  }

  lemma NativeLeavesOps(s: System, event: Event)
    ensures OnNative(s, event).ops == s.ops && OnNative(s, event).core.supply == s.core.supply
  {
    hide Deliver, Target;
  }

  lemma LookingLeavesOps(s: System, a: Action)
    requires Enabled(s, a) && (a.Native? || a.Read? || a.ReadDone?)
    ensures Next(s, a).ops == s.ops && Next(s, a).core.supply == s.core.supply
  {
    hide OnNative, OnRead, OnReadDone, Quiet;
    match a
    case Native(event) => NativeLeavesOps(s, event);
    case Read(request, rid, now) => ReadLooks(s, request, rid, now);
    case ReadDone(rid, now) => ReadDoneLooks(s, rid, now);
  }

  lemma {:induction false} ShadowRun(s: System, actions: seq<Action>, n: nat, gid: GroupId, op: Op)
    requires gid !in s.ops && op.Resubscribing? && gid < s.core.supply
    requires forall a <- actions :: Bystander(a, gid) && (Draws(a) ==> n == 0)
    ensures Run(Shadow(s, n, gid, op), actions) == Shadow(Run(s, actions), n, gid, op)
    ensures gid !in Run(s, actions).ops && gid < Run(s, actions).core.supply
  {
    hide Next, Shadow, Bystander, Draws;
    if actions != [] {
      var init, a := actions[..|actions| - 1], actions[|actions| - 1];
      ShadowRun(s, init, n, gid, op);
      ShadowStep(Run(s, init), a, n, gid, op);
      BystanderLeavesOps(Run(s, init), a, gid);
    }
  }

  /** As long as nobody draws numbers, it makes no difference that some are gone. */
  lemma AheadRun(s: System, actions: seq<Action>, n: nat, gid: GroupId)
    requires gid !in s.ops && gid < s.core.supply
    requires forall a <- actions :: Bystander(a, gid) && !Draws(a)
    ensures Run(Ahead(s, n), actions) == Ahead(Run(s, actions), n)
  {
    hide Next, Bystander, Draws;
    var op := Op.Resubscribing([], false);
    ShadowRun(s, actions, n, gid, op);
    ShadowRun(Ahead(s, n), actions, 0, gid, op);
    assert Shadow(Ahead(s, n), 0, gid, op) == Shadow(s, n, gid, op);
    var one, other := Run(Ahead(s, n), actions), Ahead(Run(s, actions), n);
    assert Shadow(one, 0, gid, op) == other.(ops := other.ops[gid := op]);
    OpsSame(one.ops, other.ops, gid, op);
  }

  lemma OpsSame(a: map<GroupId, Op>, b: map<GroupId, Op>, gid: GroupId, op: Op)
    requires gid !in a && gid !in b && a[gid := op] == b[gid := op]
    ensures a == b
  {
    assert a == a[gid := op] - {gid} && b == b[gid := op] - {gid};
  }

  /** How many tokens an attempt draws, accepted or not. */
  function Drawing(s: System, principal: string, gid: GroupId, specs: seq<Spec>, admin: bool): nat {
    if ResubscribeError(s.core, s.cfg, principal, gid, specs, admin).Some? then 0 else Accepted(specs, s.cfg)
  }

  /**
   A replacement that fails: refused in validation, or by the library, with or without feeds left alive. Whatever
   happens meanwhile to this and other groups, the run with the attempt in it ends in the very state it ends in
   when, in its place, the numbers it drew are thrown away. Only feeds that were left alive and not rolled back
   are live beside that. And where nothing else draws numbers, they are all the difference.
   */
  lemma FailedReplacementLeavesNoTrace(s: System, principal: string, gid: GroupId, specs: seq<Spec>, admin: bool,
                                       between: seq<Action>, left: set<Token>, rolledBack: bool)
    requires Inv(s) && gid !in s.ops && forall a <- between :: Bystander(a, gid)
    ensures var begin := Resubscribe(principal, gid, specs, admin);
            var done := ResubscribeDone(gid, Raised(left, rolledBack));
            var without := Run(Ahead(s, Drawing(s, principal, gid, specs, admin)), between);
            && (match ResubscribeBegin(s.core, s.cfg, principal, gid, specs, admin).1
                case Err(_) => Run(s, [begin] + between) == without
                case Ok(items) =>
                  left <= Tokens(items) ==>
                    Run(s, [begin] + between + [done]) ==
                      without.(live := if rolledBack then without.live else without.live + left))
            && (gid in s.core.groups && (forall a <- between :: !Draws(a)) ==>
                  without == Ahead(Run(s, between), Drawing(s, principal, gid, specs, admin)))
  {
    hide Inv, Next, Bystander, Ahead, Draws, Drawing, ResubscribeBegin, Tokens;
    var begin := Resubscribe(principal, gid, specs, admin);
    var n := Drawing(s, principal, gid, specs, admin);
    RunConcat(s, [begin], between);
    RunOne(s, begin);
    if gid in s.core.groups {
      GroupInv(s, gid);
      if forall a <- between :: !Draws(a) {
        AheadRun(s, between, n, gid);
      }
    }
    if ResubscribeBegin(s.core, s.cfg, principal, gid, specs, admin).1.Err? {
      AttemptRefused(s, principal, gid, specs, admin);
    } else {
      var items := ResubscribeBegin(s.core, s.cfg, principal, gid, specs, admin).1.value;
      if left <= Tokens(items) {
        AttemptFails(s, principal, gid, specs, admin, between, left, rolledBack);
      }
    }
  }

  lemma AttemptFails(s: System, principal: string, gid: GroupId, specs: seq<Spec>, admin: bool,
                     between: seq<Action>, left: set<Token>, rolledBack: bool)
    requires Inv(s) && gid !in s.ops && forall a <- between :: Bystander(a, gid)
    requires ResubscribeBegin(s.core, s.cfg, principal, gid, specs, admin).1.Ok?
    requires left <= Tokens(ResubscribeBegin(s.core, s.cfg, principal, gid, specs, admin).1.value)
    ensures var begin := Resubscribe(principal, gid, specs, admin);
            var done := ResubscribeDone(gid, Raised(left, rolledBack));
            var without := Run(Ahead(s, Drawing(s, principal, gid, specs, admin)), between);
            Run(s, [begin] + between + [done]) ==
              without.(live := if rolledBack then without.live else without.live + left)
  {
    hide Inv, Next, Bystander, Ahead, Draws, Drawing, ResubscribeBegin, Tokens;
    var begin, done := Resubscribe(principal, gid, specs, admin), ResubscribeDone(gid, Raised(left, rolledBack));
    var n := Drawing(s, principal, gid, specs, admin);
    var op := Op.Resubscribing(ResubscribeBegin(s.core, s.cfg, principal, gid, specs, admin).1.value, false);
    RunConcat(s, [begin] + between, [done]);
    RunConcat(s, [begin], between);
    RunOne(s, begin);
    AttemptBegins(s, principal, gid, specs, admin);
    ShadowRun(Ahead(s, n), between, 0, gid, op);
    NextKeeps(s, begin);
    RunKeeps(Next(s, begin), between);
    RunOne(Run(s, [begin] + between), done);
    AttemptEnds(Run(Ahead(s, n), between), gid, op, left, rolledBack);
  }

  lemma RunOne(s: System, a: Action)
    ensures Run(s, [a]) == Next(s, a)
  {
    assert [a][..0] == [];
  }

  lemma AttemptRefused(s: System, principal: string, gid: GroupId, specs: seq<Spec>, admin: bool)
    requires gid !in s.ops && ResubscribeBegin(s.core, s.cfg, principal, gid, specs, admin).1.Err?
    ensures Next(s, Resubscribe(principal, gid, specs, admin)) == Ahead(s, Drawing(s, principal, gid, specs, admin))
  {
    hide ResubscribeError;
  }

  lemma AttemptBegins(s: System, principal: string, gid: GroupId, specs: seq<Spec>, admin: bool)
    requires Inv(s) && gid !in s.ops && ResubscribeBegin(s.core, s.cfg, principal, gid, specs, admin).1.Ok?
    ensures var items := ResubscribeBegin(s.core, s.cfg, principal, gid, specs, admin).1.value;
            var ahead := Ahead(s, Drawing(s, principal, gid, specs, admin));
            && Next(s, Resubscribe(principal, gid, specs, admin)) ==
               Shadow(ahead, 0, gid, Op.Resubscribing(items, false))
            && gid !in ahead.ops && gid < ahead.core.supply
  {
    hide Inv, Tokens;
    GroupInv(s, gid);
  }

  lemma AttemptEnds(s: System, gid: GroupId, op: Op, left: set<Token>, rolledBack: bool)
    requires gid !in s.ops && op.Resubscribing? && !op.accepted && Inv(Shadow(s, 0, gid, op))
             && left <= Tokens(op.items)
    ensures Next(Shadow(s, 0, gid, op), ResubscribeDone(gid, Raised(left, rolledBack))) ==
              s.(live := if rolledBack then s.live else s.live + left)
  {
    hide Inv, Tokens;
    var t := Shadow(s, 0, gid, op);
    NoneDrawn(s, gid, op);
    OpInFlight(t, gid);
    ProspectiveUnrouted(t, gid);
    AwaitedNotLive(t, gid);
    assert s.ops[gid := op] - {gid} == s.ops;
    assert s.live - Tokens(op.items) == s.live;
  }

  lemma AwaitedNotLive(s: System, gid: GroupId)
    requires Inv(s) && gid in s.ops && s.ops[gid].Resubscribing? && !s.ops[gid].accepted
    ensures s.live !! Tokens(s.ops[gid].items)
  {
    hide LogsAgree, RoutingSound, TokensKept, OpsFit, CursorsBounded, ReadsParked, PagesAgree, Tokens;
    assert Unaccepted(s.ops)[gid] == Tokens(s.ops[gid].items);
  }
}
