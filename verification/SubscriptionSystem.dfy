/**
 Every interleaving of the subscription registry's operations with native events, as a state machine.

 An operation with an await is two actions; any other action may come between them. The environment
 decides when native events arrive, whether a native call succeeds, what a failing subscribe leaves
 alive, when the session is lost and how the clock reads. One replacing operation (create,
 resubscribe, cancel, expire, restore) per group is in flight at a time, and reads overlap all of them
 except create: a group is registered, and listed, before its create returns, and a create that fails
 drops it while a read or an operation begun in between would still hold the dropped object.
 SubscriptionOverlap does without the first rule, for every group whose create has returned.
 */
module SubscriptionSystem {
  import opened Wrappers
  import opened Cursors
  import opened SubscriptionModel
  import opened SubscriptionLog

  /** The locals an operation holds across its await. */
  datatype Op =
    | Creating(tokens: set<Token>, accepted: bool)
    | Resubscribing(items: seq<Item>, accepted: bool)
    | Cancelling(tokens: set<Token>)
    | Expiring(tokens: set<Token>)
    | Restoring(tokens: set<Token>, accepted: bool)

  /** A parked long poll. */
  datatype Parked = Parked(gid: GroupId, position: Position, limit: int, principal: string)

  /** A page that was served: where it started, and the window the group retained at that moment. */
  datatype Served = Served(
    position: Position, total: nat, window: nat, reply: Reply, newOffset: nat)

  /**
   live    tokens of the feeds the native library is delivering on
   logs    the log of every generation of every group
   issued  every cursor ever drawn
   pages   every page ever served
   */
  datatype System = System(
    cfg: Config,
    core: Core,
    ops: map<GroupId, Op>,
    parked: map<ReadId, Parked>,
    live: set<Token>,
    logs: map<(GroupId, nat), Log>,
    issued: map<CursorId, Cursor>,
    pages: seq<Served>)

  /** A failing subscribe may leave some of its feeds alive; a rollback unsubscribe may fail too. */
  datatype Outcome = Succeeded | Raised(left: set<Token>, rolledBack: bool)

  datatype Action =
    | Create(principal: string, specs: seq<Spec>, retention: Option<RetentionRequest>, now: int)
    | CreateDone(gid: GroupId, outcome: Outcome)
    | Native(event: Event)
    | Read(request: ReadRequest, rid: ReadId, now: int)
    | ReadDone(rid: ReadId, now: int)
    | Resubscribe(owner: string, gid: GroupId, specs: seq<Spec>, admin: bool)
    | ResubscribeDone(gid: GroupId, outcome: Outcome)
    | Cancel(owner: string, gid: GroupId, admin: bool)
    | CancelDone(gid: GroupId, ok: bool)
    | Expire(gid: GroupId, now: int)
    | ExpireDone(gid: GroupId, ok: bool)
    | Restore(gid: GroupId)
    | RestoreDone(gid: GroupId, outcome: Outcome)
    | Retry(token: Token, ok: bool)
    | Accept(gid: GroupId)
    | SessionLost

  function Start(cfg: Config): System {
    System(cfg, EMPTY, map[], map[], {}, map[], map[], [])
  }

  function OpTokens(op: Op): set<Token> {
    if op.Resubscribing? then Tokens(op.items) else op.tokens
  }

  predicate Subscribes(op: Op) {
    op.Creating? || op.Resubscribing? || op.Restoring?
  }

  /** A native subscribe succeeds only after the library took the feeds, and raises only if it did not. */
  predicate Fits(op: Op, outcome: Outcome) {
    && Subscribes(op)
    && (outcome.Succeeded? ==> op.accepted)
    && (outcome.Raised? ==> !op.accepted && outcome.left <= OpTokens(op))
  }

  ghost predicate Enabled(s: System, a: Action) {
    match a
    case Create(_, _, _, _) => true
    case CreateDone(gid, outcome) => gid in s.ops && s.ops[gid].Creating? && Fits(s.ops[gid], outcome)
    case Native(_) => true
    case Read(request, rid, _) =>
      && rid !in s.parked
      && !(request.subscription in s.ops && s.ops[request.subscription].Creating?)
      && (request.subscription in s.core.groups ==>
            |s.core.groups[request.subscription].buffer| <= s.core.groups[request.subscription].total)
    case ReadDone(rid, _) =>
      && rid in s.parked && s.core.longPolls > 0 && s.parked[rid].gid in s.core.groups
      && |s.core.groups[s.parked[rid].gid].buffer| <= s.core.groups[s.parked[rid].gid].total
    case Resubscribe(_, gid, _, _) => gid !in s.ops
    case ResubscribeDone(gid, outcome) =>
      gid in s.core.groups && gid in s.ops && s.ops[gid].Resubscribing? && Fits(s.ops[gid], outcome)
    case Cancel(_, gid, _) => gid !in s.ops
    case CancelDone(gid, _) => gid in s.core.groups && gid in s.ops && s.ops[gid].Cancelling?
    case Expire(gid, now) => gid !in s.ops && gid in s.core.groups && Due(s.core.groups[gid], now)
    case ExpireDone(gid, _) => gid in s.core.groups && gid in s.ops && s.ops[gid].Expiring?
    case Restore(gid) => gid !in s.ops && gid in s.core.groups && s.core.groups[gid].status.Running()
    case RestoreDone(gid, outcome) =>
      gid in s.core.groups && gid in s.ops && s.ops[gid].Restoring? && Fits(s.ops[gid], outcome)
    case Retry(token, _) => token in s.core.pending
    case Accept(gid) => gid in s.ops && Subscribes(s.ops[gid]) && !s.ops[gid].accepted
    case SessionLost => true
  }

  /** An action that is not enabled changes nothing. */
  ghost function Next(s: System, a: Action): System {
    if !Enabled(s, a) then s
    else
      match a
      case Create(principal, specs, retention, now) => OnCreate(s, principal, specs, retention, now)
      case CreateDone(gid, outcome) => OnCreateDone(s, gid, outcome)
      case Native(event) => OnNative(s, event)
      case Read(request, rid, now) => OnRead(s, request, rid, now)
      case ReadDone(rid, now) => OnReadDone(s, rid, now)
      case Resubscribe(principal, gid, specs, admin) => OnResubscribe(s, principal, gid, specs, admin)
      case ResubscribeDone(gid, outcome) => OnResubscribeDone(s, gid, outcome)
      case Cancel(principal, gid, admin) => OnCancel(s, principal, gid, admin)
      case CancelDone(gid, ok) => OnCancelDone(s, gid, ok)
      case Expire(gid, _) => s.(ops := s.ops[gid := Expiring(Tokens(s.core.groups[gid].items))])
      case ExpireDone(gid, ok) => OnExpireDone(s, gid, ok)
      case Restore(gid) => OnRestore(s, gid)
      case RestoreDone(gid, outcome) => OnRestoreDone(s, gid, outcome)
      case Retry(token, ok) =>
        s.(core := RetryFinish(s.core, token, ok), live := if ok then s.live - {token} else s.live)
      case Accept(gid) =>
        s.(ops := s.ops[gid := s.ops[gid].(accepted := true)], live := s.live + OpTokens(s.ops[gid]))
      case SessionLost => s.(live := {})
  }

  ghost function OnCreate(s: System, principal: string, specs: seq<Spec>, retention: Option<RetentionRequest>, now: int)
    : System
  {
    var (core, result) := CreateBegin(s.core, s.cfg, principal, specs, retention, now);
    if result.Err? then s.(core := core)
    else
      var gid := result.value;
      s.(core := core,
         ops := s.ops[gid := Creating(Tokens(NewItems(specs, s.core.tokenCounter, gid + 1)), false)],
         logs := s.logs[(gid, 1) := []])
  }

  ghost function OnCreateDone(s: System, gid: GroupId, outcome: Outcome): System
    requires gid in s.ops && s.ops[gid].Creating?
  {
    var ops := s.ops - {gid};
    if outcome.Succeeded? then s.(ops := ops)
    else s.(core := CreateAbort(s.core, gid, s.ops[gid].tokens), ops := ops, live := s.live + outcome.left)
  }

  ghost function OnNative(s: System, event: Event): System {
    var target := Target(s.core, event.token);
    var core := HandleEvent(s.core, event);
    if target.Some? && event.signal.Data? then
      var (gid, i) := target.value;
      var g := s.core.groups[gid];
      var log := if (gid, g.generation) in s.logs then s.logs[(gid, g.generation)] else [];
      s.(core := core, logs := s.logs[(gid, g.generation) := log + [LogEntry(g.items[i].id, event)]])
    else s.(core := core)
  }

  /** Records the page a read serves on the group as it is now. */
  ghost function Record(s: System, core: Core, gid: GroupId, position: Position, limit: int, reply: Reply,
                        cursor: Cursor)
    : System
    requires gid in s.core.groups && |s.core.groups[gid].buffer| <= s.core.groups[gid].total
  {
    var g := s.core.groups[gid];
    s.(core := core,
       issued := s.issued[cursor.id := cursor],
       pages := s.pages + [Served(position, g.total, g.maxEvents, reply, NextOffset(g, position.offset, limit))])
  }

  ghost function OnRead(s: System, request: ReadRequest, rid: ReadId, now: int): System
    requires request.subscription in s.core.groups ==>
               |s.core.groups[request.subscription].buffer| <= s.core.groups[request.subscription].total
  {
    var (core, outcome) := ReadBegin(s.core, s.cfg, request, rid, now);
    match outcome
    case Page(position, reply) =>
      var g := s.core.groups[request.subscription];
      var (cursor, _) := Successor(s.core, s.cfg, request.subscription, position,
                                   NextOffset(g, position.offset, request.limit), request.principal, now);
      Record(s, core, request.subscription, position, request.limit, reply, cursor)
    case MustWait(position) =>
      s.(core := core,
         parked := s.parked[rid := Parked(request.subscription, position, request.limit, request.principal)])
    case _ => s.(core := core)
  }

  ghost function OnReadDone(s: System, rid: ReadId, now: int): System
    requires rid in s.parked && s.core.longPolls > 0 && s.parked[rid].gid in s.core.groups
    requires |s.core.groups[s.parked[rid].gid].buffer| <= s.core.groups[s.parked[rid].gid].total
  {
    var r := s.parked[rid];
    var g := s.core.groups[r.gid];
    var (core, reply) := ReadFinish(s.core, s.cfg, r.gid, r.position, r.limit, r.principal, rid, now);
    var (cursor, _) := Successor(s.core, s.cfg, r.gid, r.position, NextOffset(g, r.position.offset, r.limit),
                                 r.principal, now);
    Record(s, core, r.gid, r.position, r.limit, reply, cursor).(parked := s.parked - {rid})
  }

  ghost function OnResubscribe(s: System, principal: string, gid: GroupId, specs: seq<Spec>, admin: bool): System {
    var (core, result) := ResubscribeBegin(s.core, s.cfg, principal, gid, specs, admin);
    if result.Err? then s.(core := core)
    else s.(core := core, ops := s.ops[gid := Op.Resubscribing(result.value, false)])
  }

  ghost function OnResubscribeDone(s: System, gid: GroupId, outcome: Outcome): System
    requires gid in s.core.groups && gid in s.ops && s.ops[gid].Resubscribing?
  {
    var items := s.ops[gid].items;
    var ops := s.ops - {gid};
    if outcome.Succeeded? then
      s.(core := ResubscribeCommit(s.core, gid, items), ops := ops,
         logs := s.logs[(gid, s.core.groups[gid].generation + 1) := []])
    else
      s.(core := ResubscribeAbort(s.core, items), ops := ops,
         live := if outcome.rolledBack then s.live - Tokens(items) else s.live + outcome.left)
  }

  ghost function OnCancel(s: System, principal: string, gid: GroupId, admin: bool): System {
    var result := CancelBegin(s.core, principal, gid, admin);
    if result.Ok? && result.value.Some? then s.(ops := s.ops[gid := Op.Cancelling(result.value.value)]) else s
  }

  ghost function OnCancelDone(s: System, gid: GroupId, ok: bool): System
    requires gid in s.core.groups && gid in s.ops && s.ops[gid].Cancelling?
  {
    s.(core := CancelFinish(s.core, gid, s.ops[gid].tokens, ok), ops := s.ops - {gid},
       live := if ok then s.live - s.ops[gid].tokens else s.live)
  }

  ghost function OnExpireDone(s: System, gid: GroupId, ok: bool): System
    requires gid in s.core.groups && gid in s.ops && s.ops[gid].Expiring?
  {
    s.(core := ExpireFinish(s.core, gid, s.ops[gid].tokens, ok), ops := s.ops - {gid},
       live := if ok then s.live - s.ops[gid].tokens else s.live)
  }

  ghost function OnRestore(s: System, gid: GroupId): System
    requires gid in s.core.groups
  {
    var core := RestoreBegin(s.core, gid);
    s.(core := core,
       ops := s.ops[gid := Restoring(Tokens(core.groups[gid].items), false)],
       logs := s.logs[(gid, core.groups[gid].generation) := []])
  }

  ghost function OnRestoreDone(s: System, gid: GroupId, outcome: Outcome): System
    requires gid in s.core.groups && gid in s.ops && s.ops[gid].Restoring?
  {
    var ops := s.ops - {gid};
    if outcome.Succeeded? then s.(ops := ops)
    else s.(core := RestoreAbort(s.core, gid, s.ops[gid].tokens), ops := ops, live := s.live + outcome.left)
  }

  /** The state after a whole run. */
  ghost function Run(s: System, actions: seq<Action>): System {
    if actions == [] then s else Next(Run(s, actions[..|actions| - 1]), actions[|actions| - 1])
  }

  lemma {:induction false} RunConcat(s: System, first: seq<Action>, second: seq<Action>)
    ensures Run(s, first + second) == Run(Run(s, first), second)
  {
    if second == [] {
      assert first + second == first;
    } else {
      var n := |second| - 1;
      assert (first + second)[..|first| + n] == first + second[..n];
      RunConcat(s, first, second[..n]);
    }
  }

  lemma RunSnoc(s: System, actions: seq<Action>, a: Action)
    ensures Run(s, actions + [a]) == Next(Run(s, actions), a)
  {
    assert (actions + [a])[..|actions|] == actions;
  }

  // -------------------------------------------------------------- invariant

  type Groups = map<GroupId, Group>
  type Logs = map<(GroupId, nat), Log>
  type Ledger = map<GroupId, set<Token>>

  /** What a generation of this length must have evicted. */
  function Excess(total: nat, max: nat): nat {
    if total > max then total - max else 0
  }

  /** Events evicted in generations 1 to n of a group. */
  ghost function Evicted(logs: Logs, gid: GroupId, n: nat, max: nat): nat {
    if n == 0 then 0
    else Evicted(logs, gid, n - 1, max) + (if (gid, n) in logs then Excess(|logs[(gid, n)]|, max) else 0)
  }

  ghost predicate GroupAgrees(gid: GroupId, g: Group, logs: Logs) {
    && g.generation >= 1
    && (gid, g.generation) in logs
    && Agrees(g, logs[(gid, g.generation)])
    && g.dropped == Evicted(logs, gid, g.generation, g.maxEvents)
  }

  /** Every group agrees with the log of its generation; logs belong to drawn ids and none is of a later generation. */
  ghost predicate LogsAgree(groups: Groups, logs: Logs, supply: nat) {
    && (forall gid <- groups :: gid < supply && GroupAgrees(gid, groups[gid], logs))
    && (forall gid: GroupId, n: nat | (gid, n) in logs ::
          gid < supply && (gid in groups ==> n <= groups[gid].generation))
  }

  ghost predicate Carries(g: Group, id: ItemId, token: Token) {
    exists i | 0 <= i < |g.items| :: g.items[i].id == id && g.items[i].token == token
  }

  ghost predicate EntrySound(groups: Groups, token: Token, entry: (GroupId, ItemId)) {
    entry.0 in groups ==> Carries(groups[entry.0], entry.1, token) && !groups[entry.0].status.Terminal()
  }

  /** A routing entry of a registered group names an item that carries the token now, in a group that is not over. */
  ghost predicate RoutingSound(groups: Groups, tokenMap: map<Token, (GroupId, ItemId)>, supply: nat) {
    forall t <- tokenMap :: tokenMap[t].0 < supply && EntrySound(groups, t, tokenMap[t])
  }

  /** The tokens each group carries. */
  ghost function Carried(groups: Groups): Ledger {
    map gid <- groups :: Tokens(groups[gid].items)
  }

  /** The tokens drawn for replacements that have not been committed. */
  ghost function Prospective(ops: map<GroupId, Op>): Ledger {
    map gid | gid in ops && ops[gid].Resubscribing? :: Tokens(ops[gid].items)
  }

  /** The tokens of subscribes the native library has not taken yet. */
  ghost function Unaccepted(ops: map<GroupId, Op>): Ledger {
    map gid | gid in ops && Subscribes(ops[gid]) && !ops[gid].accepted :: OpTokens(ops[gid])
  }

  ghost predicate Below(tokens: set<Token>, counter: nat) {
    forall t <- tokens :: t <= counter
  }

  ghost predicate AllBelow(ledger: Ledger, counter: nat) {
    forall gid <- ledger :: Below(ledger[gid], counter)
  }

  ghost predicate Apart(ledger: Ledger, tokens: set<Token>) {
    forall gid <- ledger :: ledger[gid] !! tokens
  }

  ghost predicate PairwiseApart(ledger: Ledger) {
    forall gid, hid | gid in ledger && hid in ledger && gid != hid :: ledger[gid] !! ledger[hid]
  }

  ghost predicate AcrossApart(one: Ledger, other: Ledger) {
    forall gid, hid | gid in one && hid in other :: one[gid] !! other[hid]
  }

  /**
   Only drawn tokens are in use; no token is both routed and waiting to be unsubscribed; no two groups
   share one; and a prospective token is known to nobody but the operation that drew it.
   */
  ghost predicate TokensKept(counter: nat, carried: Ledger, prospective: Ledger, routed: set<Token>,
                             pending: set<Token>) {
    && Below(routed, counter) && Below(pending, counter) && AllBelow(carried, counter) && AllBelow(prospective, counter)
    && routed !! pending
    && PairwiseApart(carried) && PairwiseApart(prospective) && AcrossApart(prospective, carried)
    && Apart(prospective, routed) && Apart(prospective, pending)
  }

  /** Only drawn tokens are live, and none of a subscribe still waiting to be taken. */
  ghost predicate FeedsKept(counter: nat, unaccepted: Ledger, live: set<Token>) {
    Below(live, counter) && Apart(unaccepted, live)
  }

  ghost predicate OpFits(groups: Groups, routed: set<Token>, gid: GroupId, op: Op) {
    && gid in groups
    && (if op.Cancelling? then !groups[gid].status.Cancelled? else !groups[gid].status.Terminal())
    && (if op.Resubscribing? then Distinct(op.items) && (forall item <- op.items :: item.sequence == 0)
        else op.tokens == Tokens(groups[gid].items))
    && (op.Creating? || op.Restoring? ==> op.tokens <= routed)
  }

  ghost predicate OpsFit(groups: Groups, routed: set<Token>, ops: map<GroupId, Op>) {
    forall gid <- ops :: OpFits(groups, routed, gid, ops[gid])
  }

  /** A cursor never points past the end of its own generation. */
  ghost predicate Bounded(cursor: Cursor, groups: Groups, supply: nat) {
    && cursor.subscription < supply
    && (cursor.subscription in groups ==>
          var g := groups[cursor.subscription];
          cursor.generation <= g.generation && (cursor.generation == g.generation ==> cursor.offset <= g.total))
  }

  ghost predicate CursorsBounded(cursors: CursorStore, issued: map<CursorId, Cursor>, groups: Groups, supply: nat) {
    && WellFormed(cursors)
    && (forall k <- cursors.entries :: k in issued && issued[k] == cursors.entries[k])
    && (forall k <- issued :: issued[k].id == k && k < cursors.next && Bounded(issued[k], groups, supply))
  }

  /** A position is the start of the log or the offset of a cursor this group issued. */
  ghost predicate Located(position: Position, gid: GroupId, issued: map<CursorId, Cursor>) {
    if position.cursor.None? then position.offset == 0
    else
      var cursor := position.cursor.value;
      && cursor.id in issued && issued[cursor.id] == cursor
      && cursor.subscription == gid && cursor.offset == position.offset
  }

  ghost predicate ParkedFits(r: Parked, groups: Groups, ops: map<GroupId, Op>, issued: map<CursorId, Cursor>) {
    r.gid in groups && !(r.gid in ops && ops[r.gid].Creating?) && Located(r.position, r.gid, issued)
  }

  /** A waiter is a parked read of this group that has seen every event there is. */
  ghost predicate WaitersCaughtUp(gid: GroupId, g: Group, parked: map<ReadId, Parked>) {
    forall rid <- g.waiters :: rid in parked && parked[rid].gid == gid && parked[rid].position.offset >= g.total
  }

  ghost predicate ReadsParked(groups: Groups, ops: map<GroupId, Op>, parked: map<ReadId, Parked>,
                              issued: map<CursorId, Cursor>) {
    && (forall rid <- parked :: ParkedFits(parked[rid], groups, ops, issued))
    && (forall gid <- groups :: WaitersCaughtUp(gid, groups[gid], parked))
  }

  /** Position of the first event a page may hold: the offset asked for, or the oldest retained one. */
  function First(v: Served): nat {
    Max(v.position.offset, Excess(v.total, v.window))
  }

  ghost predicate PageAgrees(v: Served, logs: Logs, issued: map<CursorId, Cursor>) {
    var r := v.reply;
    && v.window >= 1
    && (r.subscription, r.generation) in logs
    && v.total <= |logs[(r.subscription, r.generation)]|
    && r.gap == (v.position.offset < Excess(v.total, v.window))
    && (v.position.cursor.None? || v.position.cursor.value.generation == r.generation ==> v.position.offset <= v.total)
    && Located(v.position, r.subscription, issued)
    && r.cursor in issued
    && issued[r.cursor].subscription == r.subscription
    && issued[r.cursor].offset == v.newOffset
    && issued[r.cursor].generation == (if v.position.cursor.Some? then v.position.cursor.value.generation
                                       else r.generation)
    && (if r.events == [] then v.newOffset == v.position.offset && v.total <= First(v)
        else
          && v.newOffset == First(v) + |r.events| <= v.total
          && forall i | 0 <= i < |r.events| ::
               r.events[i] == Stamp(logs[(r.subscription, r.generation)], First(v) + i))
  }

  ghost predicate PagesAgree(pages: seq<Served>, logs: Logs, issued: map<CursorId, Cursor>) {
    forall v <- pages :: PageAgrees(v, logs, issued)
  }

  ghost predicate Inv(s: System) {
    && s.cfg.maxBuffered >= 1
    && LogsAgree(s.core.groups, s.logs, s.core.supply)
    && RoutingSound(s.core.groups, s.core.tokenMap, s.core.supply)
    && TokensKept(s.core.tokenCounter, Carried(s.core.groups), Prospective(s.ops), s.core.tokenMap.Keys, s.core.pending)
    && FeedsKept(s.core.tokenCounter, Unaccepted(s.ops), s.live)
    && OpsFit(s.core.groups, s.core.tokenMap.Keys, s.ops)
    && CursorsBounded(s.core.cursors, s.issued, s.core.groups, s.core.supply)
    && ReadsParked(s.core.groups, s.ops, s.parked, s.issued)
    && s.core.longPolls == |s.parked| <= s.cfg.maxLongPolls
    && PagesAgree(s.pages, s.logs, s.issued)
  }
}
