/**
 Where a group comes from, read off the run: who created it, when, with what retention, which specs were asked for last,
 and when it was found due. Its fields are for ever those of that history.
 */
module SubscriptionOrigins {
  import opened Wrappers
  import opened Cursors
  import opened SubscriptionModel
  import opened SubscriptionSystem
  import opened SubscriptionFrames
  import opened SubscriptionSafety
  import opened SubscriptionRuns
  import opened SubscriptionSteps

  /**
   owner, request, born   the principal, the retention and the time of the create that drew the group
   asked                  the specs of that create, or of the last replacement that committed
   wanted                 the specs of the replacement in flight
   swept                  when a sweep last found the group due
   */
  datatype Memory = Memory(
    owner: string, request: Option<RetentionRequest>, born: int, asked: seq<Spec>, wanted: seq<Spec>,
      swept: Option<int>)

  type Memories = map<GroupId, Memory>

  /** What a step adds to what is remembered. */
  ghost function Remember(s: System, a: Action, memory: Memories): Memories {
    match a
    case Create(principal, specs, retention, now) =>
      if s.core.supply in Next(s, a).core.groups
      then memory[s.core.supply := Memory(principal, retention, now, specs, [], None)] else memory
    case Resubscribe(_, gid, specs, _) =>
      if gid in memory && gid !in s.ops && gid in Next(s, a).ops then memory[gid := memory[gid].(wanted := specs)]
      else memory
    case ResubscribeDone(gid, outcome) =>
      if gid in memory && Enabled(s, a) && outcome.Succeeded?
      then memory[gid := memory[gid].(asked := memory[gid].wanted)] else memory
    case Expire(gid, now) =>
      if gid in memory && gid !in s.ops && gid in Next(s, a).ops then memory[gid := memory[gid].(swept := Some(now))]
      else memory
    case _ => memory
  }

  ghost function Remembered(s: System, actions: seq<Action>): Memories {
    if actions == [] then map[]
    else
      var init, last := actions[..|actions| - 1], actions[|actions| - 1];
      Remember(Run(s, init), last, Remembered(s, init))
  }

  // -------------------------------------------------------- what a group owes to it

  /** One item for each spec asked for, in order. */
  ghost predicate ItemsAsked(items: seq<Item>, specs: seq<Spec>) {
    && |items| == |specs|
    && forall i | 0 <= i < |specs| ::
         items[i].topic == specs[i].topic && items[i].fields == specs[i].fields && items[i].options == specs[i].options
  }

  /** The buffer bound: what was asked for if that is positive and less than the configured one. */
  ghost predicate BoundIs(cfg: Config, request: Option<RetentionRequest>, bound: nat) {
    if request.Some? && request.value.maxEvents.Some? && 1 <= request.value.maxEvents.value <= cfg.maxBuffered
    then bound == request.value.maxEvents.value else bound == cfg.maxBuffered
  }

  /** The lifetime: what was asked for if positive, capped, or the default. */
  ghost predicate LifetimeIs(cfg: Config, request: Option<RetentionRequest>, ttl: int) {
    if request.Some? && request.value.ttl.Some? && request.value.ttl.value >= 1
    then ttl == if request.value.ttl.value <= cfg.maxTtl then request.value.ttl.value else cfg.maxTtl
    else ttl == cfg.defaultTtl
  }

  /** The retention mode asked for; latest and changes when none was. */
  ghost predicate RetainsAs(request: Option<RetentionRequest>, retention: Retention) {
    if request.Some? && request.value.mode.Some? then request.value.mode.value == Some(retention)
    else retention == LatestAndChanges
  }

  ghost predicate Owes(cfg: Config, g: Group, m: Memory) {
    && g.principal == m.owner
    && BoundIs(cfg, m.request, g.maxEvents)
    && LifetimeIs(cfg, m.request, g.expiresAt - m.born)
    && RetainsAs(m.request, g.retention)
    && ItemsAsked(g.items, m.asked)
    && (g.restoredWithGap <==> g.generation > 1)
    && (g.status.Expired? ==> m.swept.Some? && m.swept.value >= g.expiresAt)
  }

  ghost predicate OpOwes(gid: GroupId, groups: Groups, op: Op, m: Memory) {
    && (op.Resubscribing? ==> ItemsAsked(op.items, m.wanted))
    && (op.Expiring? && gid in groups ==> m.swept.Some? && m.swept.value >= groups[gid].expiresAt)
  }

  ghost predicate AllOwe(s: System, memory: Memories) {
    && (forall gid <- memory :: gid < s.core.supply)
    && (forall gid <- s.core.groups :: gid in memory && Owes(s.cfg, s.core.groups[gid], memory[gid]))
    && (forall gid <- s.ops :: gid in memory && OpOwes(gid, s.core.groups, s.ops[gid], memory[gid]))
  }

  // ------------------------------------------------------------------- the steps

  /** Everything a group owes to its origin is as it was. */
  ghost predicate SameOrigin(g: Group, g': Group) {
    && g'.principal == g.principal && g'.expiresAt == g.expiresAt && g'.maxEvents == g.maxEvents
    && g'.retention == g.retention && g'.generation == g.generation && g'.restoredWithGap == g.restoredWithGap
    && |g'.items| == |g.items|
    && forall i | 0 <= i < |g.items| ::
         && g'.items[i].topic == g.items[i].topic && g'.items[i].fields == g.items[i].fields
         && g'.items[i].options == g.items[i].options
  }

  lemma SameOwes(cfg: Config, g: Group, g': Group, m: Memory)
    requires Owes(cfg, g, m) && SameOrigin(g, g')
    requires g'.status.Expired? ==> g.status.Expired? || (m.swept.Some? && m.swept.value >= g.expiresAt)
    ensures Owes(cfg, g', m)
  {
  }

  /** One group and its operation change; what is remembered of others stays. */
  lemma OthersOwe(s: System, s': System, gid: GroupId, memory: Memories, memory': Memories)
    requires AllOwe(s, memory) && s'.cfg == s.cfg && s.core.supply <= s'.core.supply
    requires Elsewhere(s.core.groups, s'.core.groups, gid) && Elsewhere(s.ops, s'.ops, gid)
    requires Elsewhere(memory, memory', gid) && (gid in memory' ==> gid < s'.core.supply)
    requires gid in s'.core.groups ==> gid in memory' && Owes(s'.cfg, s'.core.groups[gid], memory'[gid])
    requires gid in s'.ops ==> gid in memory' && OpOwes(gid, s'.core.groups, s'.ops[gid], memory'[gid])
    ensures AllOwe(s', memory')
  {
    hide Owes, OpOwes;
    forall h <- s'.core.groups ensures h in memory' && Owes(s'.cfg, s'.core.groups[h], memory'[h]) {
      assert h != gid ==> h in s.core.groups && h in memory;
    }
    forall h <- s'.ops ensures h in memory' && OpOwes(h, s'.core.groups, s'.ops[h], memory'[h]) {
      if h != gid {
        assert h in s.ops && h in memory;
        OpElsewhere(h, s.core.groups, s'.core.groups, s.ops[h], memory[h]);
      }
    }
    forall h <- memory' ensures h < s'.core.supply {
      assert h != gid ==> h in memory;
    }
  }

  lemma OpElsewhere(gid: GroupId, groups: Groups, groups': Groups, op: Op, m: Memory)
    requires OpOwes(gid, groups, op, m) && (gid in groups <==> gid in groups')
             && (gid in groups ==> groups'[gid] == groups[gid])
    ensures OpOwes(gid, groups', op, m)
  {
  }

  /** What is known of one group, its operation and its memory. */
  lemma OweAt(s: System, memory: Memories, gid: GroupId)
    requires AllOwe(s, memory)
    ensures gid in memory ==> gid < s.core.supply
    ensures gid in s.core.groups ==> gid in memory && Owes(s.cfg, s.core.groups[gid], memory[gid])
    ensures gid in s.ops ==> gid in memory && OpOwes(gid, s.core.groups, s.ops[gid], memory[gid])
  {
    hide Owes, OpOwes;
  }

  lemma CreateOwes(s: System, a: Action, memory: Memories)
    requires Inv(s) && AllOwe(s, memory) && a.Create?
    ensures AllOwe(Next(s, a), Remember(s, a, memory))
  {
    hide Inv, CreateError, Route, Accepted, Owes, OpOwes, Tokens, AllOwe, Elsewhere, NewGroup, NewItems;
    var c, gid := s.core, s.core.supply;
    var s' := Next(s, a);
    NextIdUnused(s);
    var (c', result) := CreateBegin(c, s.cfg, a.principal, a.specs, a.retention, a.now);
    if result.Ok? {
      NoRefusal(c, s.cfg, a.principal, a.specs, a.retention);
      assert a.specs[..|a.specs|] == a.specs;
      BornOwes(s.cfg, c'.groups[gid], a.principal, a.specs, a.retention, a.now, c.tokenCounter, gid + 1);
      OpCreated(gid, c'.groups, s'.ops[gid], Remember(s, a, memory)[gid]);
      ElsewherePut(memory, gid, Remember(s, a, memory)[gid]);
      ElsewherePut(c.groups, gid, c'.groups[gid]);
      ElsewherePut(s.ops, gid, s'.ops[gid]);
    } else {
      ElsewhereSame(memory, gid);
      ElsewhereSame(c.groups, gid);
      ElsewhereSame(s.ops, gid);
    }
    OweAt(s, memory, gid);
    OthersOwe(s, s', gid, memory, Remember(s, a, memory));
  }

  lemma ElsewhereSame<K, V>(m: map<K, V>, key: K)
    ensures Elsewhere(m, m, key)
  {
  }

  lemma BornOwes(cfg: Config, g: Group, principal: string, specs: seq<Spec>, retention: Option<RetentionRequest>,
                 now: int, counter: nat, supply: nat)
    requires RequestedRetention(retention).Some?
    requires g == NewGroup(cfg, principal, NewItems(specs, counter, supply), retention,
                           RequestedRetention(retention).value, now)
    ensures Owes(cfg, g, Memory(principal, retention, now, specs, [], None))
  {
  }

  lemma OpCreated(gid: GroupId, groups: Groups, op: Op, m: Memory)
    requires op.Creating? || op.Cancelling? || op.Restoring?
    ensures OpOwes(gid, groups, op, m)
  {
  }

  lemma NativeOwes(s: System, a: Action, memory: Memories)
    requires Inv(s) && AllOwe(s, memory) && a.Native?
    ensures AllOwe(Next(s, a), Remember(s, a, memory))
  {
    hide Inv, Owes, OpOwes, Recompute, AllOwe, Elsewhere, SameOrigin, Deliver, Target;
    var target := Target(s.core, a.event.token);
    if target.Some? {
      var (gid, i) := target.value;
      TargetRuns(s, a.event.token);
      var g := s.core.groups[gid];
      var g' := Deliver(g, i, a.event);
      DeliverOrigin(g, i, a.event);
      OweAt(s, memory, gid);
      ElsewherePut(s.core.groups, gid, g');
      ElsewhereSame(s.ops, gid);
      ElsewhereSame(memory, gid);
      SameOwes(s.cfg, g, g', memory[gid]);
      if gid in s.ops {
        OpSame(gid, s.core.groups, g', s.ops[gid], memory[gid]);
      }
      OthersOwe(s, Next(s, a), gid, memory, memory);
    }
  }

  lemma DeliverOrigin(g: Group, i: nat, event: Event)
    requires i < |g.items|
    ensures SameOrigin(g, Deliver(g, i, event)) && (Deliver(g, i, event).status.Expired? ==> g.status.Expired?)
    ensures Deliver(g, i, event).expiresAt == g.expiresAt
  {
    hide Recompute;
    NotExpired(Deliver(g, i, event).items, g.status);
  }

  lemma NotExpired(items: seq<Item>, before: GroupStatus)
    ensures Recompute(items, before).Expired? ==> before.Expired?
  {
  }

  lemma OpSame(gid: GroupId, groups: Groups, g': Group, op: Op, m: Memory)
    requires OpOwes(gid, groups, op, m) && gid in groups && g'.expiresAt == groups[gid].expiresAt
    ensures OpOwes(gid, groups[gid := g'], op, m)
  {
  }

  lemma QuietOwes(s: System, s': System, memory: Memories)
    requires AllOwe(s, memory) && Quiet(s.core, s'.core) && s'.ops == s.ops && s'.cfg == s.cfg
    ensures AllOwe(s', memory)
  {
    hide Owes, OpOwes;
    forall gid <- s'.core.groups ensures gid in memory && Owes(s'.cfg, s'.core.groups[gid], memory[gid]) {
      SameOwes(s.cfg, s.core.groups[gid], s'.core.groups[gid], memory[gid]);
    }
    forall gid <- s'.ops ensures gid in memory && OpOwes(gid, s'.core.groups, s'.ops[gid], memory[gid]) {
      OpQuiet(gid, s.core.groups, s'.core.groups, s.ops[gid], memory[gid]);
    }
  }

  lemma OpQuiet(gid: GroupId, groups: Groups, groups': Groups, op: Op, m: Memory)
    requires OpOwes(gid, groups, op, m)
    requires gid in groups' ==> gid in groups && groups'[gid].expiresAt == groups[gid].expiresAt
    ensures OpOwes(gid, groups', op, m)
  {
  }

  lemma LookingOwes(s: System, a: Action, memory: Memories)
    requires AllOwe(s, memory) && Enabled(s, a) && (a.Read? || a.ReadDone?)
    ensures AllOwe(Next(s, a), Remember(s, a, memory))
  {
    hide AllOwe, OnRead, OnReadDone, Quiet;
    match a {
      case Read(request, rid, now) =>
        ReadLooks(s, request, rid, now);
        ReadKeepsConfig(s, request, rid, now);
      case ReadDone(rid, now) => ReadDoneLooks(s, rid, now);
    }
    assert Next(s, a).cfg == s.cfg by {
      if a.ReadDone? {
        ReadDoneKeepsConfig(s, a.rid, a.now);
      }
    }
    QuietOwes(s, Next(s, a), memory);
  }

  lemma ReadKeepsConfig(s: System, request: ReadRequest, rid: ReadId, now: int)
    requires request.subscription in s.core.groups ==>
               |s.core.groups[request.subscription].buffer| <= s.core.groups[request.subscription].total
    ensures OnRead(s, request, rid, now).cfg == s.cfg
  {
    hide ReadBegin, Successor, NextOffset;
    PageIsOfGroup(s.core, s.cfg, request, rid, now);
  }

  lemma ReadDoneKeepsConfig(s: System, rid: ReadId, now: int)
    requires rid in s.parked && s.core.longPolls > 0 && s.parked[rid].gid in s.core.groups
    requires |s.core.groups[s.parked[rid].gid].buffer| <= s.core.groups[s.parked[rid].gid].total
    ensures OnReadDone(s, rid, now).cfg == s.cfg
  {
    hide ReadFinish, Successor, NextOffset;
  }

  lemma ResubscribeOwes(s: System, a: Action, memory: Memories)
    requires AllOwe(s, memory) && Enabled(s, a) && a.Resubscribe?
    ensures AllOwe(Next(s, a), Remember(s, a, memory))
  {
    hide Owes, OpOwes, ResubscribeError, Accepted, AllOwe, Elsewhere, NewItems;
    var gid, s' := a.gid, Next(s, a);
    OweAt(s, memory, gid);
    if gid in s'.ops {
      OnlyOnGroups(s, a);
      var m' := memory[gid].(wanted := a.specs);
      WantedOwes(gid, s'.core.groups, s'.ops[gid], a.specs, m', s.core.tokenCounter, s.core.supply);
      MemoryOwes(s.cfg, s.core.groups[gid], memory[gid], m');
      ElsewherePut(s.ops, gid, s'.ops[gid]);
      ElsewherePut(memory, gid, m');
    } else {
      ElsewhereSame(s.ops, gid);
      ElsewhereSame(memory, gid);
    }
    ElsewhereSame(s.core.groups, gid);
    OthersOwe(s, s', gid, memory, Remember(s, a, memory));
  }

  lemma OnlyOnGroups(s: System, a: Action)
    requires Enabled(s, a) && a.Resubscribe? && a.gid in Next(s, a).ops
    ensures a.gid in s.core.groups
  {
    hide NewItems, Accepted;
  }

  lemma WantedOwes(gid: GroupId, groups: Groups, op: Op, specs: seq<Spec>, m: Memory, counter: nat, supply: nat)
    requires op == Op.Resubscribing(NewItems(specs, counter, supply), false) && m.wanted == specs
    ensures OpOwes(gid, groups, op, m)
  {
  }

  lemma MemoryOwes(cfg: Config, g: Group, m: Memory, m': Memory)
    requires Owes(cfg, g, m) && m' == m.(wanted := m'.wanted)
    ensures Owes(cfg, g, m')
  {
  }

  /** A new generation: with the specs wanted, or with the same ones again. */
  lemma RenewedOwes(cfg: Config, g: Group, items: seq<Item>, status: GroupStatus, m: Memory, m': Memory)
    requires Owes(cfg, g, m) && m' == m.(asked := m'.asked) && ItemsAsked(items, m'.asked)
    requires g.generation >= 1 && !status.Expired?
    ensures Owes(cfg, NextGeneration(g, items, status), m')
  {
  }

  lemma CommitOwes(s: System, a: Action, memory: Memories)
    requires Inv(s) && AllOwe(s, memory) && Enabled(s, a) && a.ResubscribeDone?
    ensures AllOwe(Next(s, a), Remember(s, a, memory))
  {
    hide Inv, Owes, OpOwes, Tokens, Route, Invalidate, Recompute, Fits, NextGeneration, AllOwe, Elsewhere;
    var gid, s' := a.gid, Next(s, a);
    GroupInv(s, gid);
    OweAt(s, memory, gid);
    ElsewherePut(s.ops, gid, s.ops[gid]);
    if a.outcome.Succeeded? {
      var items, m' := s.ops[gid].items, memory[gid].(asked := memory[gid].wanted);
      NotExpired(items, GroupStatus.Starting);
      OpWanted(gid, s.core.groups, s.ops[gid], memory[gid]);
      RenewedOwes(s.cfg, s.core.groups[gid], items, Recompute(items, GroupStatus.Starting), memory[gid], m');
      ElsewherePut(s.core.groups, gid, s'.core.groups[gid]);
      ElsewherePut(memory, gid, m');
    } else {
      ElsewhereSame(s.core.groups, gid);
      ElsewhereSame(memory, gid);
    }
    OthersOwe(s, s', gid, memory, Remember(s, a, memory));
  }

  lemma OpWanted(gid: GroupId, groups: Groups, op: Op, m: Memory)
    requires OpOwes(gid, groups, op, m) && op.Resubscribing?
    ensures ItemsAsked(op.items, m.wanted)
  {
  }

  lemma RestoreOwes(s: System, a: Action, memory: Memories)
    requires Inv(s) && AllOwe(s, memory) && Enabled(s, a) && a.Restore?
    ensures AllOwe(Next(s, a), Remember(s, a, memory))
  {
    hide Inv, Owes, OpOwes, Tokens, Route, Invalidate, NextGeneration, AllOwe, Elsewhere, ItemsAsked;
    var gid, s' := a.gid, Next(s, a);
    GroupInv(s, gid);
    OweAt(s, memory, gid);
    var g := s.core.groups[gid];
    SameAsked(g.items, Renewed(g.items, s.core.tokenCounter), s.cfg, g, memory[gid]);
    RenewedOwes(s.cfg, g, Renewed(g.items, s.core.tokenCounter), GroupStatus.Starting, memory[gid], memory[gid]);
    OpCreated(gid, s'.core.groups, s'.ops[gid], memory[gid]);
    ElsewherePut(s.core.groups, gid, s'.core.groups[gid]);
    ElsewherePut(s.ops, gid, s'.ops[gid]);
    ElsewhereSame(memory, gid);
    OthersOwe(s, s', gid, memory, memory);
  }

  lemma SameAsked(items: seq<Item>, items': seq<Item>, cfg: Config, g: Group, m: Memory)
    requires Owes(cfg, g, m) && g.items == items && |items'| == |items|
    requires forall i | 0 <= i < |items| ::
               items'[i] == items[i].(token := items'[i].token, status := items'[i].status,
                                      sequence := items'[i].sequence)
    ensures ItemsAsked(items', m.asked)
  {
  }

  lemma EndOwes(s: System, a: Action, memory: Memories)
    requires AllOwe(s, memory) && Enabled(s, a) && (a.CancelDone? || a.ExpireDone? || a.RestoreDone?)
    ensures AllOwe(Next(s, a), Remember(s, a, memory))
  {
    hide Owes, OpOwes, Tokens, Invalidate, Fits, AllOwe, Elsewhere, SameOrigin;
    var gid, s' := a.gid, Next(s, a);
    var g, g' := s.core.groups[gid], s'.core.groups[gid];
    OweAt(s, memory, gid);
    SweptOp(gid, s.core.groups, s.ops[gid], memory[gid]);
    MarkedOrigin(g, g');
    SameOwes(s.cfg, g, g', memory[gid]);
    ElsewherePut(s.core.groups, gid, g');
    ElsewherePut(s.ops, gid, s.ops[gid]);
    ElsewhereSame(memory, gid);
    OthersOwe(s, s', gid, memory, memory);
  }

  lemma SweptOp(gid: GroupId, groups: Groups, op: Op, m: Memory)
    requires OpOwes(gid, groups, op, m)
    ensures op.Expiring? && gid in groups ==> m.swept.Some? && m.swept.value >= groups[gid].expiresAt
  {
  }

  lemma MarkedOrigin(g: Group, g': Group)
    requires g' == g.(status := g'.status, items := g'.items, waiters := g'.waiters)
    requires g'.items == g.items || exists status :: g'.items == WithStatus(g.items, status)
    ensures SameOrigin(g, g')
  {
  }

  lemma CreateDoneOwes(s: System, a: Action, memory: Memories)
    requires AllOwe(s, memory) && Enabled(s, a) && a.CreateDone?
    ensures AllOwe(Next(s, a), Remember(s, a, memory))
  {
    hide Owes, OpOwes, Tokens, Fits, AllOwe, Elsewhere;
    OweAt(s, memory, a.gid);
    ElsewherePut(s.ops, a.gid, s.ops[a.gid]);
    if a.gid in s.core.groups {
      ElsewherePut(s.core.groups, a.gid, s.core.groups[a.gid]);
    } else {
      assert s.core.groups - {a.gid} == s.core.groups;
    }
    ElsewhereSame(s.core.groups, a.gid);
    ElsewhereSame(memory, a.gid);
    OthersOwe(s, Next(s, a), a.gid, memory, memory);
  }

  lemma CancelOwes(s: System, a: Action, memory: Memories)
    requires AllOwe(s, memory) && Enabled(s, a) && a.Cancel?
    ensures AllOwe(Next(s, a), Remember(s, a, memory))
  {
    hide Tokens, Owes, OpOwes, AllOwe, Elsewhere;
    var gid, s' := a.gid, Next(s, a);
    OweAt(s, memory, gid);
    if gid in s'.ops {
      OpCreated(gid, s.core.groups, s'.ops[gid], memory[gid]);
      ElsewherePut(s.ops, gid, s'.ops[gid]);
    } else {
      ElsewhereSame(s.ops, gid);
    }
    ElsewhereSame(s.core.groups, gid);
    ElsewhereSame(memory, gid);
    OthersOwe(s, s', gid, memory, memory);
  }

  lemma ExpireOwes(s: System, a: Action, memory: Memories)
    requires AllOwe(s, memory) && Enabled(s, a) && a.Expire?
    ensures AllOwe(Next(s, a), Remember(s, a, memory))
  {
    hide Tokens, Owes, AllOwe, Elsewhere;
    var gid, s' := a.gid, Next(s, a);
    OweAt(s, memory, gid);
    var m' := memory[gid].(swept := Some(a.now));
    SweptOwes(s.cfg, s.core.groups[gid], memory[gid], m');
    ElsewherePut(s.ops, gid, s'.ops[gid]);
    ElsewhereSame(s.core.groups, gid);
    ElsewherePut(memory, gid, m');
    OthersOwe(s, s', gid, memory, memory[gid := m']);
  }

  lemma AcceptOwes(s: System, a: Action, memory: Memories)
    requires AllOwe(s, memory) && Enabled(s, a) && a.Accept?
    ensures AllOwe(Next(s, a), Remember(s, a, memory))
  {
    hide OpTokens, Owes, AllOwe, Elsewhere;
    var gid, s' := a.gid, Next(s, a);
    OweAt(s, memory, gid);
    ElsewherePut(s.ops, gid, s'.ops[gid]);
    ElsewhereSame(s.core.groups, gid);
    ElsewhereSame(memory, gid);
    OthersOwe(s, s', gid, memory, memory);
  }

  /** A later sweep of a group that is not over takes nothing away. */
  lemma SweptOwes(cfg: Config, g: Group, m: Memory, m': Memory)
    requires Owes(cfg, g, m) && (m' == m || (m' == m.(swept := m'.swept) && !g.status.Expired?))
    ensures Owes(cfg, g, m')
  {
  }

  lemma AsideOwes(s: System, a: Action, memory: Memories)
    requires AllOwe(s, memory) && Enabled(s, a) && (a.Retry? || a.SessionLost?)
    ensures AllOwe(Next(s, a), Remember(s, a, memory))
  {
    hide Owes, OpOwes;
  }

  lemma NextOwes(s: System, a: Action, memory: Memories)
    requires Inv(s) && AllOwe(s, memory)
    ensures AllOwe(Next(s, a), Remember(s, a, memory))
  {
    hide Inv, Enabled, AllOwe, Remember, Next;
    if !Enabled(s, a) {
      DisabledForgets(s, a, memory);
    } else {
      match a
      case Create(_, _, _, _) => CreateOwes(s, a, memory);
      case CreateDone(_, _) => CreateDoneOwes(s, a, memory);
      case Native(_) => NativeOwes(s, a, memory);
      case Read(_, _, _) => LookingOwes(s, a, memory);
      case ReadDone(_, _) => LookingOwes(s, a, memory);
      case Resubscribe(_, _, _, _) => ResubscribeOwes(s, a, memory);
      case ResubscribeDone(_, _) => CommitOwes(s, a, memory);
      case Restore(_) => RestoreOwes(s, a, memory);
      case CancelDone(_, _) => EndOwes(s, a, memory);
      case ExpireDone(_, _) => EndOwes(s, a, memory);
      case RestoreDone(_, _) => EndOwes(s, a, memory);
      case Cancel(_, _, _) => CancelOwes(s, a, memory);
      case Expire(_, _) => ExpireOwes(s, a, memory);
      case Accept(_) => AcceptOwes(s, a, memory);
      case _ => AsideOwes(s, a, memory);
    }
  }

  lemma DisabledForgets(s: System, a: Action, memory: Memories)
    requires !Enabled(s, a)
    ensures Next(s, a) == s && Remember(s, a, memory) == memory
  {
  }

  /** In every reachable state every group is what its history makes of it. */
  lemma {:induction false} GroupsOweTheirOrigin(cfg: Config, actions: seq<Action>)
    requires cfg.maxBuffered >= 1
    ensures AllOwe(Run(Start(cfg), actions), Remembered(Start(cfg), actions))
  {
    hide Inv, Next, Remember;
    if actions != [] {
      var init := actions[..|actions| - 1];
      GroupsOweTheirOrigin(cfg, init);
      Reachable(cfg, init);
      NextOwes(Run(Start(cfg), init), actions[|actions| - 1], Remembered(Start(cfg), init));
    }
  }

  // -------------------------------------------------------------------- ownership

  /** In the run this principal created this group: it was not there before that create, and was after it. */
  ghost predicate CreatedBy(s: System, actions: seq<Action>, gid: GroupId, who: string) {
    exists k :: 0 <= k < |actions| && DrawnAt(s, actions, gid, who, k)
  }

  ghost predicate DrawnAt(s: System, actions: seq<Action>, gid: GroupId, who: string, k: nat)
    requires k < |actions|
  {
    && actions[k].Create? && actions[k].principal == who
    && gid !in Run(s, actions[..k]).core.groups && gid in Run(s, actions[..k + 1]).core.groups
  }

  /** A group that appears in a step was drawn by the create it is. */
  lemma AppearsInCreate(s: System, a: Action, gid: GroupId)
    requires Inv(s) && gid !in s.core.groups && gid in Next(s, a).core.groups
    ensures a.Create? ==> gid == s.core.supply
  {
    hide Inv, CreateError, Route, Accepted, NewItems, NewGroup, Tokens;
  }

  lemma CreatorStep(s0: System, actions: seq<Action>, gid: GroupId, who: string)
    requires actions != []
    ensures var init, last := actions[..|actions| - 1], actions[|actions| - 1];
            CreatedBy(s0, actions, gid, who) <==>
              || CreatedBy(s0, init, gid, who)
              || (last.Create? && last.principal == who && gid !in Run(s0, init).core.groups
                  && gid in Run(s0, actions).core.groups)
  {
    hide Run, DrawnAt;
    var n := |actions| - 1;
    var init, last := actions[..n], actions[n];
    LastDrawn(s0, actions, gid, who);
    if CreatedBy(s0, init, gid, who) {
      var k :| 0 <= k < |init| && DrawnAt(s0, init, gid, who, k);
      DrawnBefore(s0, actions, gid, who, k);
    }
    if CreatedBy(s0, actions, gid, who) {
      var k :| 0 <= k < |actions| && DrawnAt(s0, actions, gid, who, k);
      if k < n {
        DrawnBefore(s0, actions, gid, who, k);
      }
    }
  }

  lemma LastDrawn(s0: System, actions: seq<Action>, gid: GroupId, who: string)
    requires actions != []
    ensures var init, last := actions[..|actions| - 1], actions[|actions| - 1];
            DrawnAt(s0, actions, gid, who, |actions| - 1) <==>
              && last.Create? && last.principal == who
              && gid !in Run(s0, init).core.groups && gid in Run(s0, actions).core.groups
  {
    hide Run;
    assert actions[..|actions| - 1 + 1] == actions;
  }

  lemma DrawnBefore(s0: System, actions: seq<Action>, gid: GroupId, who: string, k: nat)
    requires k < |actions| - 1
    ensures DrawnAt(s0, actions[..|actions| - 1], gid, who, k) <==> DrawnAt(s0, actions, gid, who, k)
  {
    hide Run;
    var init := actions[..|actions| - 1];
    assert init[..k] == actions[..k] && init[..k + 1] == actions[..k + 1];
  }

  /** The one remembered as owner is the one who created it, and there is no other. */
  lemma {:induction false} OwnersCreated(cfg: Config, actions: seq<Action>, gid: GroupId, who: string)
    requires cfg.maxBuffered >= 1
    ensures var memory := Remembered(Start(cfg), actions);
            CreatedBy(Start(cfg), actions, gid, who) <==> gid in memory && memory[gid].owner == who
  {
    hide Inv, Next, Remember, AllOwe, CreatedBy;
    if actions == [] {
      assert !CreatedBy(Start(cfg), actions, gid, who) by {
        NobodyCreated(Start(cfg), gid, who);
      }
    } else {
      var init, last := actions[..|actions| - 1], actions[|actions| - 1];
      var s, memory := Run(Start(cfg), init), Remembered(Start(cfg), init);
      OwnersCreated(cfg, init, gid, who);
      CreatorStep(Start(cfg), actions, gid, who);
      Reachable(cfg, init);
      GroupsOweTheirOrigin(cfg, init);
      OweAt(s, memory, gid);
      OwnerStep(s, last, memory, gid);
    }
  }

  lemma NobodyCreated(s: System, gid: GroupId, who: string)
    ensures !CreatedBy(s, [], gid, who)
  {
  }

  /** A step remembers a new owner exactly for the group it makes appear. */
  lemma OwnerStep(s: System, a: Action, memory: Memories, gid: GroupId)
    requires Inv(s) && (gid in memory ==> gid < s.core.supply)
    ensures var memory' := Remember(s, a, memory);
            if a.Create? && gid !in s.core.groups && gid in Next(s, a).core.groups
            then gid !in memory && gid in memory' && memory'[gid].owner == a.principal
            else (gid in memory' <==> gid in memory) && (gid in memory ==> memory'[gid].owner == memory[gid].owner)
  {
    hide Inv, Next, Enabled;
    NextIdUnused(s);
    if gid !in s.core.groups && gid in Next(s, a).core.groups {
      AppearsInCreate(s, a, gid);
    }
  }

  /** The principal of a group is for ever the one that created it. */
  lemma OwnerIsCreator(cfg: Config, actions: seq<Action>, gid: GroupId, who: string)
    requires cfg.maxBuffered >= 1 && gid in Run(Start(cfg), actions).core.groups
    ensures CreatedBy(Start(cfg), actions, gid, who) <==> Run(Start(cfg), actions).core.groups[gid].principal == who
  {
    hide Run, Remembered, AllOwe, CreatedBy;
    OwnersCreated(cfg, actions, gid, who);
    GroupsOweTheirOrigin(cfg, actions);
    OweAt(Run(Start(cfg), actions), Remembered(Start(cfg), actions), gid);
    OwnerRemembered(Run(Start(cfg), actions), Remembered(Start(cfg), actions), gid);
  }

  lemma OwnerRemembered(s: System, memory: Memories, gid: GroupId)
    requires gid in memory && gid in s.core.groups && Owes(s.cfg, s.core.groups[gid], memory[gid])
    ensures s.core.groups[gid].principal == memory[gid].owner
  {
  }
}
