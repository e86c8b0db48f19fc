/**
 The subscription registry as values (registry/subscriptions.py): the state of every group, and one
 function for each stretch of code between two awaits. SubscriptionRegistry.dfy proves that the
 registry's methods compute these functions; SubscriptionSystem.dfy proves what every interleaving
 of them keeps.

 Random handles (group and item ids) are modelled as a counter that never repeats.
 */
module SubscriptionModel {
  import opened Wrappers
  import opened Cursors

  type Token = nat
  type GroupId = nat
  type ItemId = nat
  type ReadId = nat
  type Payload = map<string, string>

  datatype ItemStatus = Starting | Active | Failed | Cancelled | Expired

  datatype GroupStatus =
    | Created | Starting | Active | Degraded | Resubscribing | Cancelling | Cancelled | Failed | Expired
  {
    predicate Running() {
      Created? || Starting? || Active? || Degraded? || Resubscribing?
    }

    predicate Terminal() {
      Cancelled? || Expired?
    }
  }

  datatype Item = Item(
    id: ItemId,
    topic: string,
    fields: seq<string>,
    options: map<string, string>,
    token: Token,
    status: ItemStatus,
    sequence: nat)

  /** A native event; every status other than the four named ones takes the data path. */
  datatype Signal = Started | Failure | Terminated | Unsubscribed | Data

  datatype Event = Event(token: Token, signal: Signal, messageType: string, receivedAt: string, payload: Payload)

  datatype BufferedEvent = BufferedEvent(
    item: ItemId, sequence: nat, receivedAt: string, messageType: string, payload: Payload)

  datatype Retention = LatestAndChanges | ChangesOnly | LatestOnly

  datatype Group = Group(
    principal: string,
    generation: nat,
    status: GroupStatus,
    items: seq<Item>,
    expiresAt: int,
    dropped: nat,
    restoredWithGap: bool,
    buffer: seq<BufferedEvent>,
    total: nat,
    latest: map<ItemId, Payload>,
    waiters: set<ReadId>,
    maxEvents: nat,
    retention: Retention)

  datatype Core = Core(
    groups: map<GroupId, Group>,
    tokenMap: map<Token, (GroupId, ItemId)>,
    pending: set<Token>,
    tokenCounter: nat,
    supply: nat,
    longPolls: nat,
    cursors: CursorStore)

  datatype Config = Config(
    maxPerPrincipal: nat,
    maxTopics: nat,
    maxFields: nat,
    maxBuffered: nat,
    maxTtl: nat,
    defaultTtl: nat,
    cursorTtl: int,
    maxLongPolls: nat)

  const EMPTY: Core := Core(map[], map[], {}, 0, 0, 0, CursorStore(map[], 0))

  // ------------------------------------------------------------------ items

  function Tokens(items: seq<Item>): set<Token> {
    set item <- items :: item.token
  }

  function Ids(items: seq<Item>): set<ItemId> {
    set item <- items :: item.id
  }

  ghost predicate Distinct(items: seq<Item>) {
    forall i, j | 0 <= i < j < |items| :: items[i].id != items[j].id
  }

  /** Position of the item with this id, or the length when there is none. */
  function IndexOf(items: seq<Item>, id: ItemId): (i: nat)
    ensures i <= |items|
    ensures i < |items| ==> items[i].id == id
    ensures i == |items| ==> id !in Ids(items)
  {
    if items == [] then 0 else if items[0].id == id then 0 else 1 + IndexOf(items[1..], id)
  }

  function Statuses(items: seq<Item>): set<ItemStatus> {
    set item <- items :: item.status
  }

  function Recompute(items: seq<Item>, before: GroupStatus): GroupStatus {
    var statuses := Statuses(items);
    if statuses == {ItemStatus.Active} then GroupStatus.Active
    else if ItemStatus.Active in statuses || statuses == {ItemStatus.Starting} then
      if statuses <= {ItemStatus.Starting} then GroupStatus.Starting else GroupStatus.Degraded
    else if statuses == {ItemStatus.Failed} then GroupStatus.Failed
    else before
  }

  function WithStatus(items: seq<Item>, status: ItemStatus): (r: seq<Item>)
    ensures |r| == |items|
    ensures forall i | 0 <= i < |items| :: r[i] == items[i].(status := status)
  {
    seq(|items|, i requires 0 <= i < |items| => items[i].(status := status))
  }

  /** Routing entries, written in order so that a later item wins. */
  function Route(tokenMap: map<Token, (GroupId, ItemId)>, gid: GroupId, items: seq<Item>)
    : map<Token, (GroupId, ItemId)>
  {
    if items == [] then tokenMap
    else
      var last := items[|items| - 1];
      Route(tokenMap, gid, items[..|items| - 1])[last.token := (gid, last.id)]
  }

  // ----------------------------------------------------------------- create

  datatype Spec = Spec(topic: string, fields: seq<string>, options: map<string, string>)

  /** The retention mapping: only positive integers and known modes have an effect. */
  datatype RetentionRequest = RetentionRequest(
    maxEvents: Option<int>, ttl: Option<int>, mode: Option<Option<Retention>>)

  predicate Acceptable(spec: Spec, cfg: Config) {
    spec.topic != "" && |spec.fields| <= cfg.maxFields
  }

  function Refusal(spec: Spec): ErrorCode {
    if spec.topic == "" then INVALID_ARGUMENT else SUBSCRIPTION_LIMIT_EXCEEDED
  }

  /** How many specs the construction loop gets through before one is refused. */
  function Accepted(specs: seq<Spec>, cfg: Config): (n: nat)
    ensures n <= |specs|
    ensures forall i | 0 <= i < n :: Acceptable(specs[i], cfg)
    ensures n < |specs| ==> !Acceptable(specs[n], cfg)
  {
    if specs == [] || !Acceptable(specs[0], cfg) then 0 else 1 + Accepted(specs[1..], cfg)
  }

  function NewItems(specs: seq<Spec>, counter: nat, supply: nat): (items: seq<Item>)
    ensures |items| == |specs|
    ensures forall i | 0 <= i < |items| ::
              items[i] == Item(supply + i, specs[i].topic, specs[i].fields, specs[i].options,
                               counter + 1 + i, ItemStatus.Starting, 0)
  {
    seq(|specs|, i requires 0 <= i < |specs| =>
      Item(supply + i, specs[i].topic, specs[i].fields, specs[i].options, counter + 1 + i, ItemStatus.Starting, 0))
  }

  function RunningGroups(groups: map<GroupId, Group>, principal: string): set<GroupId> {
    set gid <- groups | groups[gid].principal == principal && groups[gid].status.Running()
  }

  function CappedEvents(cfg: Config, request: Option<RetentionRequest>): nat {
    if request.Some? && request.value.maxEvents.Some? && 0 < request.value.maxEvents.value < cfg.maxBuffered
    then request.value.maxEvents.value else cfg.maxBuffered
  }

  function CappedTtl(cfg: Config, request: Option<RetentionRequest>): nat {
    if request.Some? && request.value.ttl.Some? && request.value.ttl.value > 0
    then if request.value.ttl.value < cfg.maxTtl then request.value.ttl.value else cfg.maxTtl
    else cfg.defaultTtl
  }

  /** None when the mode is not one of the three known ones. */
  function RequestedRetention(request: Option<RetentionRequest>): Option<Retention> {
    if request.Some? && request.value.mode.Some? then request.value.mode.value else Some(LatestAndChanges)
  }

  function CreateError(c: Core, cfg: Config, principal: string, specs: seq<Spec>, request: Option<RetentionRequest>)
    : Option<ErrorCode>
  {
    if |RunningGroups(c.groups, principal)| >= cfg.maxPerPrincipal then Some(SUBSCRIPTION_LIMIT_EXCEEDED)
    else if specs == [] then Some(INVALID_ARGUMENT)
    else if |specs| > cfg.maxTopics then Some(SUBSCRIPTION_LIMIT_EXCEEDED)
    else if RequestedRetention(request).None? then Some(INVALID_ARGUMENT)
    else None
  }

  function NewGroup(cfg: Config, principal: string, items: seq<Item>, request: Option<RetentionRequest>,
                    retention: Retention, now: int): Group
  {
    Group(principal, 1, GroupStatus.Starting, items, now + CappedTtl(cfg, request), 0, false, [], 0, map[], {},
          CappedEvents(cfg, request), retention)
  }

  /** Up to the native subscribe. A spec refused late leaves the routing entries of the earlier ones behind. */
  function CreateBegin(c: Core, cfg: Config, principal: string, specs: seq<Spec>,
                       request: Option<RetentionRequest>, now: int): (r: (Core, Result<GroupId>))
  {
    var error := CreateError(c, cfg, principal, specs, request);
    if error.Some? then (c, Err(error.value))
    else
      var gid := c.supply;
      var n := Accepted(specs, cfg);
      var items := NewItems(specs[..n], c.tokenCounter, gid + 1);
      var routed := c.(tokenMap := Route(c.tokenMap, gid, items),
                       tokenCounter := c.tokenCounter + n, supply := gid + 1 + n);
      if n < |specs| then (routed, Err(Refusal(specs[n])))
      else
        var group := NewGroup(cfg, principal, items, request, RequestedRetention(request).value, now);
        (routed.(groups := routed.groups[gid := group]), Ok(gid))
  }

  function CreateAbort(c: Core, gid: GroupId, tokens: set<Token>): Core {
    c.(groups := c.groups - {gid}, tokenMap := c.tokenMap - tokens)
  }

  // ----------------------------------------------------------------- events

  function Deliver(g: Group, i: nat, event: Event): Group
    requires i < |g.items|
  {
    match event.signal
    case Data =>
      var item := g.items[i].(sequence := g.items[i].sequence + 1);
      var full := |g.buffer| >= g.maxEvents && g.buffer != [];
      var entry := BufferedEvent(item.id, item.sequence, event.receivedAt, event.messageType, event.payload);
      var seen := if item.id in g.latest then g.latest[item.id] else map[];
      g.(items := g.items[i := item],
         total := g.total + 1,
         buffer := (if full then g.buffer[1..] else g.buffer) + [entry],
         dropped := if full then g.dropped + 1 else g.dropped,
         latest := g.latest[item.id := seen + event.payload],
         waiters := {})
    case _ =>
      var status := match event.signal
        case Started => ItemStatus.Active
        case Unsubscribed => ItemStatus.Cancelled
        case _ => ItemStatus.Failed;
      var items := g.items[i := g.items[i].(status := status)];
      g.(items := items, status := Recompute(items, g.status), waiters := {})
  }

  /** The group and item an event is routed to, if both still exist. */
  function Target(c: Core, token: Token): Option<(GroupId, nat)> {
    if token in c.tokenMap && c.tokenMap[token].0 in c.groups then
      var (gid, id) := c.tokenMap[token];
      var i := IndexOf(c.groups[gid].items, id);
      if i < |c.groups[gid].items| then Some((gid, i)) else None
    else None
  }

  function HandleEvent(c: Core, event: Event): Core {
    var target := Target(c, event.token);
    if target.None? then c
    else
      var (gid, i) := target.value;
      c.(groups := c.groups[gid := Deliver(c.groups[gid], i, event)])
  }

  // ------------------------------------------------------------------- read

  datatype ReadMode = Latest | Changes | OtherMode

  datatype ReadRequest = ReadRequest(
    principal: string,
    subscription: GroupId,
    generation: Option<nat>,
    mode: ReadMode,
    cursor: Option<CursorId>,
    limit: int,
    wait: bool,
    admin: bool)

  /** Where a read of the changes starts: the cursor it presented, if any, and the first offset it wants. */
  datatype Position = Position(cursor: Option<Cursor>, offset: nat)

  datatype Reply = Reply(
    subscription: GroupId, generation: nat, events: seq<BufferedEvent>, dropped: nat, cursor: CursorId, gap: bool)

  datatype ReadOutcome =
    | Refused(error: ErrorCode)
    | LatestView(generation: nat, latest: map<ItemId, Payload>, dropped: nat)
    | MustWait(position: Position)
    | Page(position: Position, reply: Reply)

  predicate Owned(c: Core, principal: string, gid: GroupId, admin: bool) {
    gid in c.groups && (c.groups[gid].principal == principal || admin)
  }

  function ReadError(c: Core, request: ReadRequest): Option<ErrorCode> {
    if !Owned(c, request.principal, request.subscription, request.admin) then Some(SUBSCRIPTION_NOT_FOUND)
    else
      var g := c.groups[request.subscription];
      if g.status.Terminal() then Some(SUBSCRIPTION_EXPIRED)
      else if request.generation.Some? && request.generation.value != g.generation then Some(CURSOR_INVALID)
      else if request.mode.Latest? && g.retention.ChangesOnly? then Some(INVALID_ARGUMENT)
      else if request.mode.Changes? && g.retention.LatestOnly? then Some(INVALID_ARGUMENT)
      else if request.mode.OtherMode? then Some(INVALID_ARGUMENT)
      else None
  }

  /** The presented cursor is stored, unexpired, this principal's, and bound to this group's current generation. */
  ghost predicate CursorAccepted(c: Core, request: ReadRequest, id: CursorId, now: int)
    requires request.subscription in c.groups
  {
    && Presentable(c.cursors, id, request.principal, now)
    && c.cursors.entries[id].subscription == request.subscription
    && c.cursors.entries[id].generation == c.groups[request.subscription].generation
  }

  /** The retained events whose position in the generation's log is at least offset. */
  function Select(buffer: seq<BufferedEvent>, base: nat, offset: nat): seq<BufferedEvent> {
    if offset <= base then buffer
    else if offset - base <= |buffer| then buffer[offset - base..]
    else []
  }

  function PageSize(limit: int): nat {
    if limit < 1 then 1 else if limit > 1000 then 1000 else limit
  }

  function Base(g: Group): int {
    g.total - |g.buffer|
  }

  function PageFrom(g: Group, offset: nat, limit: int): seq<BufferedEvent>
    requires |g.buffer| <= g.total
  {
    var selected := Select(g.buffer, Base(g), offset);
    if |selected| <= PageSize(limit) then selected else selected[..PageSize(limit)]
  }

  function NextOffset(g: Group, offset: nat, limit: int): nat
    requires |g.buffer| <= g.total
  {
    var page := PageFrom(g, offset, limit);
    if page == [] then offset else (if offset < Base(g) then Base(g) else offset) + |page|
  }

  ghost function Successor(c: Core, cfg: Config, gid: GroupId, position: Position, next: nat, principal: string,
                           now: int)
    : (Cursor, CursorStore)
    requires gid in c.groups
  {
    if position.cursor.Some? then
      var used := position.cursor.value;
      var before := Forget(c.cursors, used.id);
      var cursor := Draw(before, used.subscription, used.generation, next, used.principal, cfg.cursorTtl, now);
      (cursor, Insert(before, cursor, now))
    else
      var cursor := Draw(c.cursors, gid, c.groups[gid].generation, next, Some(principal), cfg.cursorTtl, now);
      (cursor, Insert(c.cursors, cursor, now))
  }

  /** The synchronous end of a read: cut the page, replace the cursor, report the gap. */
  ghost function Serve(c: Core, cfg: Config, gid: GroupId, position: Position, limit: int, principal: string, now: int)
    : (Core, Reply)
    requires gid in c.groups && |c.groups[gid].buffer| <= c.groups[gid].total
  {
    var g := c.groups[gid];
    var (cursor, store) := Successor(c, cfg, gid, position, NextOffset(g, position.offset, limit), principal, now);
    (c.(cursors := store),
     Reply(gid, g.generation, PageFrom(g, position.offset, limit), g.dropped, cursor.id, position.offset < Base(g)))
  }

  /** Up to the first await. A read that must wait holds a long-poll slot and registers a waiter. */
  ghost function ReadBegin(c: Core, cfg: Config, request: ReadRequest, rid: ReadId, now: int): (Core, ReadOutcome)
    requires request.subscription in c.groups ==>
               |c.groups[request.subscription].buffer| <= c.groups[request.subscription].total
  {
    var error := ReadError(c, request);
    if error.Some? then (c, Refused(error.value))
    else
      var gid := request.subscription;
      var g := c.groups[gid];
      if request.mode.Latest? then (c, LatestView(g.generation, g.latest, g.dropped))
      else
        var c1 := if request.cursor.None? then c
                  else c.(cursors := AfterResolve(c.cursors, request.cursor.value, request.principal, now));
        if request.cursor.Some? && !CursorAccepted(c, request, request.cursor.value, now) then
          (c1, Refused(CURSOR_INVALID))
        else
          var position := if request.cursor.None? then Position(None, 0)
                          else Position(Some(c.cursors.entries[request.cursor.value]),
                                        c.cursors.entries[request.cursor.value].offset);
          ReadAt(c1, cfg, request, position, rid, now)
  }

  /** The rest of a read of the changes, once its position is known. */
  ghost function ReadAt(c: Core, cfg: Config, request: ReadRequest, position: Position, rid: ReadId, now: int)
    : (Core, ReadOutcome)
    requires request.subscription in c.groups
    requires |c.groups[request.subscription].buffer| <= c.groups[request.subscription].total
  {
    var gid := request.subscription;
    var g := c.groups[gid];
    if request.wait && c.longPolls >= cfg.maxLongPolls then (c, Refused(RATE_LIMITED))
    else if request.wait && g.total <= position.offset then
      (c.(longPolls := c.longPolls + 1, groups := c.groups[gid := g.(waiters := g.waiters + {rid})]),
       MustWait(position))
    else
      var (served, reply) := Serve(c, cfg, gid, position, request.limit, request.principal, now);
      (served, Page(position, reply))
  }

  /** A parked read resumes: woken, or timed out with its waiter still registered. */
  ghost function ReadFinish(c: Core, cfg: Config, gid: GroupId, position: Position, limit: int, principal: string,
                            rid: ReadId, now: int): (Core, Reply)
    requires gid in c.groups && |c.groups[gid].buffer| <= c.groups[gid].total
    requires c.longPolls > 0
  {
    var g := c.groups[gid];
    Serve(c.(longPolls := c.longPolls - 1, groups := c.groups[gid := g.(waiters := g.waiters - {rid})]),
          cfg, gid, position, limit, principal, now)
  }

  // ------------------------------------------------------------ resubscribe

  function ResubscribeError(c: Core, cfg: Config, principal: string, gid: GroupId, specs: seq<Spec>, admin: bool)
    : Option<ErrorCode>
  {
    if !Owned(c, principal, gid, admin) then Some(SUBSCRIPTION_NOT_FOUND)
    else if c.groups[gid].status.Terminal() then Some(SUBSCRIPTION_EXPIRED)
    else if |specs| > cfg.maxTopics then Some(SUBSCRIPTION_LIMIT_EXCEEDED)
    else None
  }

  /** Phase 1: build the prospective items without touching the live group. */
  function ResubscribeBegin(c: Core, cfg: Config, principal: string, gid: GroupId, specs: seq<Spec>, admin: bool)
    : (Core, Result<seq<Item>>)
  {
    var error := ResubscribeError(c, cfg, principal, gid, specs, admin);
    if error.Some? then (c, Err(error.value))
    else
      var n := Accepted(specs, cfg);
      var drawn := c.(tokenCounter := c.tokenCounter + n, supply := c.supply + n);
      if n < |specs| then (drawn, Err(Refusal(specs[n])))
      else (drawn, Ok(NewItems(specs, c.tokenCounter, c.supply)))
  }

  function ResubscribeAbort(c: Core, items: seq<Item>): Core {
    c.(tokenMap := c.tokenMap - Tokens(items))
  }

  /** Generation g + 1 starts empty. */
  function NextGeneration(g: Group, items: seq<Item>, status: GroupStatus): Group {
    g.(generation := g.generation + 1, status := status, items := items, restoredWithGap := true,
       buffer := [], latest := map[], total := 0)
  }

  /** Phase 3: swap the items and retire the old feeds. */
  ghost function ResubscribeCommit(c: Core, gid: GroupId, items: seq<Item>): Core
    requires gid in c.groups
  {
    var g := c.groups[gid];
    var retired := Tokens(g.items);
    c.(groups := c.groups[gid := NextGeneration(g, items, Recompute(items, GroupStatus.Starting))],
       tokenMap := Route(c.tokenMap - retired, gid, items),
       pending := c.pending + retired,
       cursors := Invalidate(c.cursors, gid))
  }

  // --------------------------------------------------- cancel, expire, retry

  /** None when the group is already cancelled; otherwise the tokens to unsubscribe. */
  function CancelBegin(c: Core, principal: string, gid: GroupId, admin: bool): Result<Option<set<Token>>> {
    if !Owned(c, principal, gid, admin) then Err(SUBSCRIPTION_NOT_FOUND)
    else if c.groups[gid].status.Cancelled? then Ok(None)
    else Ok(Some(Tokens(c.groups[gid].items)))
  }

  ghost function CancelFinish(c: Core, gid: GroupId, tokens: set<Token>, ok: bool): Core
    requires gid in c.groups
  {
    var g := c.groups[gid];
    c.(groups := c.groups[gid := g.(status := GroupStatus.Cancelled,
                                    items := WithStatus(g.items, ItemStatus.Cancelled), waiters := {})],
       tokenMap := c.tokenMap - tokens,
       pending := if ok then c.pending else c.pending + tokens,
       cursors := Invalidate(c.cursors, gid))
  }

  predicate Due(g: Group, now: int) {
    now >= g.expiresAt && g.status.Running()
  }

  ghost function ExpireFinish(c: Core, gid: GroupId, tokens: set<Token>, ok: bool): Core
    requires gid in c.groups
  {
    var g := c.groups[gid];
    c.(groups := c.groups[gid := g.(status := GroupStatus.Expired, items := WithStatus(g.items, ItemStatus.Expired))],
       tokenMap := c.tokenMap - tokens,
       pending := if ok then c.pending else c.pending + tokens,
       cursors := Invalidate(c.cursors, gid))
  }

  function RetryFinish(c: Core, token: Token, ok: bool): Core {
    if ok then c.(pending := c.pending - {token}) else c
  }

  // ---------------------------------------------------------------- restore

  function Renewed(items: seq<Item>, counter: nat): (r: seq<Item>)
    ensures |r| == |items|
    ensures forall i | 0 <= i < |items| ::
              r[i] == items[i].(token := counter + 1 + i, status := ItemStatus.Starting, sequence := 0)
  {
    seq(|items|, i requires 0 <= i < |items| =>
      items[i].(token := counter + 1 + i, status := ItemStatus.Starting, sequence := 0))
  }

  /** Up to the native subscribe: a new generation with new tokens, routed at once. */
  ghost function RestoreBegin(c: Core, gid: GroupId): Core
    requires gid in c.groups
  {
    var g := c.groups[gid];
    var items := Renewed(g.items, c.tokenCounter);
    c.(groups := c.groups[gid := NextGeneration(g, items, GroupStatus.Starting)],
       tokenMap := Route(c.tokenMap - Tokens(g.items), gid, items),
       tokenCounter := c.tokenCounter + |items|,
       cursors := Invalidate(c.cursors, gid))
  }

  ghost function RestoreAbort(c: Core, gid: GroupId, tokens: set<Token>): Core
    requires gid in c.groups
  {
    c.(groups := c.groups[gid := c.groups[gid].(status := GroupStatus.Failed)], tokenMap := c.tokenMap - tokens)
  }
}
