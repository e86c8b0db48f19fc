/**
 The subscription registry as it is written (registry/subscriptions.py): objects updated in place.
 A coroutine is cut at its awaits, so each method here is one synchronous stretch, and its contract
 ties the new state to the function of SubscriptionModel for that stretch.
 */
module SubscriptionRegistry {
  import opened Wrappers
  import opened Cursors
  import opened SubscriptionModel

  class GroupRuntime {
    const id: GroupId
    const principal: string
    const expiresAt: int
    const maxEvents: nat
    const retention: Retention
    var generation: nat
    var status: GroupStatus
    var items: seq<Item>
    var dropped: nat
    var restoredWithGap: bool
    var buffer: seq<BufferedEvent>
    var total: nat
    var latest: map<ItemId, Payload>
    var waiters: set<ReadId>

    constructor (id: GroupId, principal: string, expiresAt: int, maxEvents: nat, retention: Retention, items: seq<Item>)
      ensures this.id == id
      ensures View() == Group(principal, 1, GroupStatus.Starting, items, expiresAt, 0, false, [], 0, map[], {},
                              maxEvents, retention)
    {
      this.id, this.principal, this.expiresAt, this.maxEvents, this.retention := id, principal, expiresAt, maxEvents,
        retention;
      generation, status, this.items := 1, GroupStatus.Starting, items;
      dropped, restoredWithGap, buffer, total, latest, waiters := 0, false, [], 0, map[], {};
    }

    ghost function View(): Group
      reads this
    {
      Group(principal, generation, status, items, expiresAt, dropped, restoredWithGap, buffer, total, latest, waiters,
            maxEvents, retention)
    }

    method Wake()
      modifies this`waiters
      ensures waiters == {}
    {
      waiters := {};
    }

    method RecomputeStatus()
      modifies this`status
      ensures status == Recompute(items, old(status))
    {
      var statuses := set item <- items :: item.status;
      if statuses == {ItemStatus.Active} {
        status := GroupStatus.Active;
      } else if ItemStatus.Active in statuses || statuses == {ItemStatus.Starting} {
        status := if statuses <= {ItemStatus.Starting} then GroupStatus.Starting else GroupStatus.Degraded;
      } else if statuses == {ItemStatus.Failed} {
        status := GroupStatus.Failed;
      }
    }

    method SetItemStatus(i: nat, itemStatus: ItemStatus)
      requires i < |items|
      modifies this
      ensures View() == old(View()).(items := old(items)[i := old(items)[i].(status := itemStatus)],
                                     status := Recompute(items, old(status)), waiters := {})
    {
      items := items[i := items[i].(status := itemStatus)];
      RecomputeStatus();
      Wake();
    }

    /** One native event for the item at position i. */
    method Receive(i: nat, event: Event)
      requires i < |items|
      modifies this
      ensures View() == Deliver(old(View()), i, event)
    {
      hide Recompute;
      if event.signal.Started? {
        SetItemStatus(i, ItemStatus.Active);
        return;
      }
      if event.signal.Failure? || event.signal.Terminated? {
        SetItemStatus(i, ItemStatus.Failed);
        return;
      }
      if event.signal.Unsubscribed? {
        SetItemStatus(i, ItemStatus.Cancelled);
        return;
      }
      ReceiveData(i, event);
    }

    /** A data event: count it, slide the bounded buffer, merge the latest view. */
    method ReceiveData(i: nat, event: Event)
      requires i < |items| && event.signal.Data?
      modifies this
      ensures View() == Deliver(old(View()), i, event)
    {
      var item := items[i].(sequence := items[i].sequence + 1);
      items := items[i := item];
      total := total + 1;
      if |buffer| >= maxEvents && buffer != [] {
        buffer := buffer[1..];
        dropped := dropped + 1;
      }
      buffer := buffer + [BufferedEvent(item.id, item.sequence, event.receivedAt, event.messageType, event.payload)];
      var seen := if item.id in latest then latest[item.id] else map[];
      latest := latest[item.id := seen + event.payload];
      Wake();
    }

    /** Generation g + 1 starts with these items and no events. */
    method StartGeneration(newItems: seq<Item>, newStatus: GroupStatus)
      modifies this
      ensures View() == NextGeneration(old(View()), newItems, newStatus)
    {
      generation := generation + 1;
      status := newStatus;
      items := newItems;
      restoredWithGap := true;
      buffer, latest, total := [], map[], 0;
    }

    method MarkItems(itemStatus: ItemStatus)
      modifies this`items
      ensures items == WithStatus(old(items), itemStatus)
    {
      var i := 0;
      while i < |items|
        invariant i <= |items| == |old(items)|
        invariant forall j | 0 <= j < i :: items[j] == old(items)[j].(status := itemStatus)
        invariant forall j | i <= j < |items| :: items[j] == old(items)[j]
      {
        items := items[i := items[i].(status := itemStatus)];
        i := i + 1;
      }
    }

    /** The items are swapped for a replacement's, and the status follows from theirs. */
    method Replace(newItems: seq<Item>)
      modifies this
      ensures View() == NextGeneration(old(View()), newItems, Recompute(newItems, GroupStatus.Starting))
    {
      StartGeneration(newItems, GroupStatus.Starting);
      RecomputeStatus();
    }

    method Cancel()
      modifies this
      ensures View() == var g := old(View());
                        g.(status := GroupStatus.Cancelled, items := WithStatus(g.items, ItemStatus.Cancelled),
                           waiters := {})
    {
      MarkItems(ItemStatus.Cancelled);
      status := GroupStatus.Cancelled;
      Wake();
    }

    method Expire()
      modifies this
      ensures View() == var g := old(View());
                        g.(status := GroupStatus.Expired, items := WithStatus(g.items, ItemStatus.Expired))
    {
      status := GroupStatus.Expired;
      MarkItems(ItemStatus.Expired);
    }

    method ItemTokens() returns (tokens: set<Token>)
      ensures tokens == Tokens(View().items)
    {
      tokens := set item <- items :: item.token;
    }

    method AddWaiter(rid: ReadId)
      modifies this`waiters
      ensures View() == old(View()).(waiters := old(View()).waiters + {rid})
    {
      waiters := waiters + {rid};
    }

    method RemoveWaiter(rid: ReadId)
      modifies this`waiters
      ensures View() == old(View()).(waiters := old(View()).waiters - {rid})
    {
      waiters := waiters - {rid};
    }

    /** The retained events from an offset on, each with its place in the log. */
    method Select(offset: nat) returns (selected: seq<(nat, BufferedEvent)>)
      requires |buffer| <= total
      ensures var from := if offset <= Base(View()) then 0 else offset - Base(View());
              && |selected| == (if from <= |buffer| then |buffer| - from else 0)
              && forall k | 0 <= k < |selected| :: selected[k] == (Base(View()) + from + k, buffer[from + k])
    {
      var base := total - |buffer|;
      ghost var from := if offset <= base then 0 else offset - base;
      selected := [];
      var position := 0;
      while position < |buffer|
        invariant position <= |buffer|
        invariant |selected| == if from <= position then position - from else 0
        invariant forall k | 0 <= k < |selected| :: selected[k] == (base + from + k, buffer[from + k])
      {
        if base + position >= offset {
          selected := selected + [(base + position, buffer[position])];
        }
        position := position + 1;
      }
    }

    /** The page of retained events from an offset on, and the offset after it. */
    method Cut(offset: nat, limit: int) returns (page: seq<BufferedEvent>, newOffset: nat, gap: bool)
      requires |buffer| <= total
      ensures page == PageFrom(View(), offset, limit)
      ensures newOffset == NextOffset(View(), offset, limit)
      ensures gap == (offset < Base(View()))
    {
      var base := total - |buffer|;
      var selected := Select(offset);
      var size := if limit < 1 then 1 else if limit > 1000 then 1000 else limit;
      var cut := if |selected| <= size then selected else selected[..size];
      page := seq(|cut|, k requires 0 <= k < |cut| => cut[k].1);
      newOffset := if cut == [] then offset else cut[|cut| - 1].0 + 1;
      gap := offset < base;
      assert page == PageFrom(View(), offset, limit);
    }
  }

  lemma AcceptedIs(specs: seq<Spec>, cfg: Config, n: nat)
    requires n <= |specs| && forall i | 0 <= i < n :: Acceptable(specs[i], cfg)
    requires n < |specs| ==> !Acceptable(specs[n], cfg)
    ensures Accepted(specs, cfg) == n
  {
  }

  lemma NewItemsSnoc(specs: seq<Spec>, counter: nat, supply: nat, n: nat)
    requires n < |specs|
    ensures NewItems(specs[..n + 1], counter, supply) ==
              NewItems(specs[..n], counter, supply) +
              [Item(supply + n, specs[n].topic, specs[n].fields, specs[n].options, counter + 1 + n, ItemStatus.Starting,
                    0)]
  {
  }

  lemma NothingRouted(tokenMap: map<Token, (GroupId, ItemId)>, gid: GroupId)
    ensures Route(tokenMap, gid, []) == tokenMap
  {
  }

  lemma RouteSnoc(tokenMap: map<Token, (GroupId, ItemId)>, gid: GroupId, items: seq<Item>, item: Item)
    ensures Route(tokenMap, gid, items + [item]) == Route(tokenMap, gid, items)[item.token := (gid, item.id)]
  {
    assert (items + [item])[..|items|] == items;
  }

  class Registry {
    const cfg: Config
    const cursors: CursorRegistry
    var groups: map<GroupId, GroupRuntime>
    var tokenMap: map<Token, (GroupId, ItemId)>
    var pending: set<Token>
    var tokenCounter: nat
    var supply: nat
    var longPolls: nat

    constructor (cfg: Config, cursors: CursorRegistry)
      requires cursors.View() == CursorStore(map[], 0)
      ensures Valid() && this.cfg == cfg && this.cursors == cursors && View() == EMPTY
    {
      this.cfg, this.cursors := cfg, cursors;
      groups, tokenMap, pending, tokenCounter, supply, longPolls := map[], map[], {}, 0, 0, 0;
    }

    ghost predicate Valid()
      reads this, cursors, groups.Values
    {
      && cursors.Valid()
      && forall gid <- groups ::
           && gid < supply && groups[gid].id == gid
           && |groups[gid].View().buffer| <= groups[gid].View().total
    }

    ghost function Views(): map<GroupId, Group>
      reads this, groups.Values
    {
      map gid <- groups :: groups[gid].View()
    }

    ghost function View(): Core
      reads this, cursors, groups.Values
    {
      Core(Views(), tokenMap, pending, tokenCounter, supply, longPolls, cursors.View())
    }

    // ---------------------------------------------------------------- events

    method HandleEvent(event: Event)
      requires Valid()
      modifies groups.Values
      ensures Valid() && View() == SubscriptionModel.HandleEvent(old(View()), event)
    {
      if event.token !in tokenMap {
        return;
      }
      var (gid, id) := tokenMap[event.token];
      if gid !in groups {
        return;
      }
      var runtime := groups[gid];
      var i := IndexOf(runtime.items, id);
      if i == |runtime.items| {
        return;
      }
      runtime.Receive(i, event);
      assert Views() == old(Views())[gid := runtime.View()];
    }

    // ---------------------------------------------------------------- create

    method CreateUntilSubscribe(principal: string, specs: seq<Spec>, request: Option<RetentionRequest>, now: int)
      returns (r: Result<GroupId>)
      requires Valid()
      modifies this`groups, this`tokenMap, this`tokenCounter, this`supply
      ensures Valid()
      ensures (View(), r) == CreateBegin(old(View()), cfg, principal, specs, request, now)
    {
      hide Valid, View, CappedEvents, CappedTtl, RequestedRetention, RunningGroups, Route;
      var error := CheckLimits(principal, specs);
      if error.Some? {
        return Err(error.value);
      }
      var maxEvents, ttl, retention := Limits(request);
      if retention.None? {
        return Err(INVALID_ARGUMENT);
      }
      var gid, items := BuildRouted(specs);
      if |items| < |specs| {
        return Err(Refusal(specs[|items|]));
      }
      assert specs[..|specs|] == specs;
      AddGroup(gid, principal, now + ttl, maxEvents, retention.value, items);
      return Ok(gid);
    }

    method CheckLimits(principal: string, specs: seq<Spec>) returns (error: Option<ErrorCode>)
      requires Valid()
      ensures error == (if |RunningGroups(View().groups, principal)| >= cfg.maxPerPrincipal then
        Some(SUBSCRIPTION_LIMIT_EXCEEDED)
                        else if specs == [] then Some(INVALID_ARGUMENT)
                        else if |specs| > cfg.maxTopics then Some(SUBSCRIPTION_LIMIT_EXCEEDED)
                        else None)
    {
      var active := set gid <- groups | groups[gid].principal == principal && groups[gid].status.Running();
      assert active == RunningGroups(Views(), principal);
      if |active| >= cfg.maxPerPrincipal {
        return Some(SUBSCRIPTION_LIMIT_EXCEEDED);
      }
      if specs == [] {
        return Some(INVALID_ARGUMENT);
      }
      if |specs| > cfg.maxTopics {
        return Some(SUBSCRIPTION_LIMIT_EXCEEDED);
      }
      return None;
    }

    method AddGroup(gid: GroupId, principal: string, expiresAt: int, maxEvents: nat, retention: Retention,
                    items: seq<Item>)
      requires Valid() && gid < View().supply
      modifies this`groups
      ensures Valid()
      ensures View() == var c := old(View());
                        c.(groups := c.groups[gid := Group(principal, 1, GroupStatus.Starting, items, expiresAt, 0,
                                                           false, [], 0, map[], {}, maxEvents, retention)])
    {
      var runtime := new GroupRuntime(gid, principal, expiresAt, maxEvents, retention, items);
      hide GroupRuntime.View;
      groups := groups[gid := runtime];
      assert Views() == old(Views())[gid := runtime.View()];
    }

    /** The retention a group gets: requested values are capped, anything else falls back to the default. */
    method Limits(request: Option<RetentionRequest>) returns (maxEvents: nat, ttl: nat, retention: Option<Retention>)
      ensures maxEvents == CappedEvents(cfg, request) && ttl == CappedTtl(cfg, request)
      ensures retention == RequestedRetention(request)
    {
      maxEvents, ttl, retention := cfg.maxBuffered, cfg.defaultTtl, Some(LatestAndChanges);
      if request.Some? {
        if request.value.maxEvents.Some? && request.value.maxEvents.value > 0 {
          maxEvents := if request.value.maxEvents.value < cfg.maxBuffered then request.value.maxEvents.value
                       else cfg.maxBuffered;
        }
        if request.value.ttl.Some? && request.value.ttl.value > 0 {
          ttl := if request.value.ttl.value < cfg.maxTtl then request.value.ttl.value else cfg.maxTtl;
        }
        if request.value.mode.Some? {
          retention := request.value.mode.value;
        }
      }
    }

    /** Draws the group id, then builds and routes items until a spec is refused. */
    method BuildRouted(specs: seq<Spec>) returns (gid: GroupId, items: seq<Item>)
      requires Valid()
      modifies this`tokenMap, this`tokenCounter, this`supply
      ensures Valid()
      ensures var c := old(View());
              var n := Accepted(specs, cfg);
              && gid == c.supply
              && items == NewItems(specs[..n], c.tokenCounter, gid + 1)
              && View() == c.(tokenMap := Route(c.tokenMap, gid, items), tokenCounter := c.tokenCounter + n,
                              supply := gid + 1 + n)
    {
      hide Route, NewItems, WellFormed;
      gid := supply;
      supply := supply + 1;
      items := RouteAsBuilt(gid, specs);
      assert Views() == old(Views());
    }

    method RouteAsBuilt(gid: GroupId, specs: seq<Spec>) returns (items: seq<Item>)
      modifies this`tokenMap, this`tokenCounter, this`supply
      ensures var n := Accepted(specs, cfg);
              && items == NewItems(specs[..n], old(tokenCounter), old(supply))
              && tokenMap == Route(old(tokenMap), gid, items)
              && tokenCounter == old(tokenCounter) + n && supply == old(supply) + n
    {
      hide Accepted, Route;
      items := [];
      NothingRouted(tokenMap, gid);
      for n := 0 to |specs|
        invariant items == NewItems(specs[..n], old(tokenCounter), old(supply))
        invariant tokenMap == Route(old(tokenMap), gid, items)
        invariant tokenCounter == old(tokenCounter) + n && supply == old(supply) + n
        invariant forall i | 0 <= i < n :: Acceptable(specs[i], cfg)
      {
        if !Acceptable(specs[n], cfg) {
          AcceptedIs(specs, cfg, n);
          return;
        }
        NewItemsSnoc(specs, old(tokenCounter), old(supply), n);
        tokenCounter := tokenCounter + 1;
        var item := Item(supply, specs[n].topic, specs[n].fields, specs[n].options, tokenCounter, ItemStatus.Starting,
                         0);
        supply := supply + 1;
        RouteSnoc(old(tokenMap), gid, items, item);
        tokenMap := tokenMap[item.token := (gid, item.id)];
        items := items + [item];
      }
      AcceptedIs(specs, cfg, |specs|);
    }

    method CreateRollback(gid: GroupId, tokens: set<Token>)
      requires Valid()
      modifies this
      ensures Valid() && View() == CreateAbort(old(View()), gid, tokens)
    {
      groups := groups - {gid};
      tokenMap := tokenMap - tokens;
      assert Views() == old(Views()) - {gid};
    }

    // ------------------------------------------------------------------ read

    method FindRuntime(principal: string, gid: GroupId, admin: bool) returns (runtime: GroupRuntime?)
      requires Valid()
      ensures runtime != null <==> Owned(View(), principal, gid, admin)
      ensures runtime != null ==> gid in groups && runtime == groups[gid]
    {
      if gid !in groups {
        return null;
      }
      if groups[gid].principal != principal && !admin {
        return null;
      }
      return groups[gid];
    }

    /** The synchronous end of a read. */
    method ServePage(gid: GroupId, position: Position, limit: int, principal: string, now: int) returns (reply: Reply)
      requires Valid() && gid in groups
      modifies cursors
      ensures Valid() && gid in old(View()).groups && |old(View()).groups[gid].buffer| <= old(View()).groups[gid].total
      ensures (View(), reply) == Serve(old(View()), cfg, gid, position, limit, principal, now)
    {
      hide Valid, View, GroupRuntime.View, PageFrom, NextOffset, Insert, Base;
      var generation, dropped, page, newOffset, gap := CutPage(gid, position.offset, limit);
      var next := NextCursor(gid, position, generation, newOffset, principal, now);
      reply := Reply(gid, generation, page, dropped, next.id, gap);
    }

    method CutPage(gid: GroupId, offset: nat, limit: int)
      returns (generation: nat, dropped: nat, page: seq<BufferedEvent>, newOffset: nat, gap: bool)
      requires Valid() && gid in groups
      ensures gid in View().groups && |View().groups[gid].buffer| <= View().groups[gid].total
      ensures var g := View().groups[gid];
              && generation == g.generation && dropped == g.dropped
              && page == PageFrom(g, offset, limit) && newOffset == NextOffset(g, offset, limit)
                 && gap == (offset < Base(g))
    {
      hide PageFrom, NextOffset;
      page, newOffset, gap := groups[gid].Cut(offset, limit);
      generation, dropped := groups[gid].generation, groups[gid].dropped;
    }

    /** Replaces the presented cursor, or draws the first one. */
    method NextCursor(gid: GroupId, position: Position, generation: nat, newOffset: nat, principal: string, now: int)
      returns (next: Cursor)
      requires Valid() && gid in View().groups && generation == View().groups[gid].generation
      modifies cursors
      ensures Valid()
      ensures var c := old(View());
              && next == Successor(c, cfg, gid, position, newOffset, principal, now).0
              && View() == c.(cursors := Successor(c, cfg, gid, position, newOffset, principal, now).1)
    {
      hide GroupRuntime.View, Insert, WellFormed;
      if position.cursor.Some? {
        next := cursors.Consume(position.cursor.value, newOffset, cfg.cursorTtl, now);
      } else {
        next := cursors.Create(gid, generation, newOffset, Some(principal), cfg.cursorTtl, now);
      }
      assert Views() == old(Views());
    }

    method Read(request: ReadRequest, rid: ReadId, now: int) returns (outcome: ReadOutcome)
      requires Valid()
      modifies this`longPolls, cursors, groups.Values
      ensures Valid()
      ensures (View(), outcome) == ReadBegin(old(View()), cfg, request, rid, now)
    {
      var runtime := FindRuntime(request.principal, request.subscription, request.admin);
      if runtime == null {
        return Refused(SUBSCRIPTION_NOT_FOUND);
      }
      if runtime.status.Cancelled? || runtime.status.Expired? {
        return Refused(SUBSCRIPTION_EXPIRED);
      }
      if request.generation.Some? && request.generation.value != runtime.generation {
        return Refused(CURSOR_INVALID);
      }
      if request.mode.Latest? && runtime.retention.ChangesOnly? {
        return Refused(INVALID_ARGUMENT);
      }
      if request.mode.Changes? && runtime.retention.LatestOnly? {
        return Refused(INVALID_ARGUMENT);
      }
      if request.mode.Latest? {
        return LatestView(runtime.generation, runtime.latest, runtime.dropped);
      }
      if !request.mode.Changes? {
        return Refused(INVALID_ARGUMENT);
      }
      outcome := ReadChanges(request, rid, now);
    }

    /** The changes branch of a read, once the group may be read. */
    method ReadChanges(request: ReadRequest, rid: ReadId, now: int) returns (outcome: ReadOutcome)
      requires Valid() && request.subscription in groups
      requires ReadError(View(), request).None? && request.mode.Changes?
      modifies this`longPolls, cursors, groups[request.subscription]
      ensures Valid()
      ensures request.subscription in old(View()).groups
      ensures (View(), outcome) == ReadBegin(old(View()), cfg, request, rid, now)
    {
      ReadableGroup(request);
      hide Valid, View, GroupRuntime.View, ReadAt, ReadError, CursorAccepted;
      var position := Position(None, 0);
      if request.cursor.Some? {
        var found := ResolveFor(request, request.cursor.value, now);
        if found.None? {
          return Refused(CURSOR_INVALID);
        }
        position := Position(found, found.value.offset);
      }
      outcome := ReadFrom(request, position, rid, now);
    }

    /** Waits when there is nothing new and the caller is willing to, and serves the page otherwise. */
    method ReadFrom(request: ReadRequest, position: Position, rid: ReadId, now: int) returns (outcome: ReadOutcome)
      requires Valid() && request.subscription in groups
      modifies this`longPolls, cursors, groups[request.subscription]
      ensures Valid() && request.subscription in old(View()).groups
      ensures |old(View()).groups[request.subscription].buffer| <= old(View()).groups[request.subscription].total
      ensures (View(), outcome) == ReadAt(old(View()), cfg, request, position, rid, now)
    {
      ReadableGroup(request);
      hide Valid, View, GroupRuntime.View, Serve;
      if request.wait {
        var full, caughtUp := PollState(request.subscription, position.offset);
        if full {
          return Refused(RATE_LIMITED);
        }
        if caughtUp {
          Park(request.subscription, rid);
          return MustWait(position);
        }
      }
      var reply := ServePage(request.subscription, position, request.limit, request.principal, now);
      return Page(position, reply);
    }

    lemma ReadableGroup(request: ReadRequest)
      requires Valid() && request.subscription in groups
      ensures request.subscription in View().groups
      ensures |View().groups[request.subscription].buffer| <= View().groups[request.subscription].total
    {
    }

    /** The presented cursor, if this read may use it; an expired or foreign one is destroyed. */
    method ResolveFor(request: ReadRequest, id: CursorId, now: int) returns (found: Option<Cursor>)
      requires Valid() && request.subscription in groups
      modifies cursors
      ensures Valid() && request.subscription in old(View()).groups
      ensures var c := old(View());
              && View() == c.(cursors := AfterResolve(c.cursors, id, request.principal, now))
              && (CursorAccepted(c, request, id, now) ==> id in c.cursors.entries)
              && found == if CursorAccepted(c, request, id, now) then Some(c.cursors.entries[id]) else None
    {
      found := cursors.Resolve(id, request.principal, now);
      if found.Some? && (found.value.subscription != request.subscription
                         || found.value.generation != groups[request.subscription].generation) {
        found := None;
      }
      assert Views() == old(Views());
    }

    method PollState(gid: GroupId, offset: nat) returns (full: bool, caughtUp: bool)
      requires Valid() && gid in groups
      ensures gid in View().groups
      ensures full == (View().longPolls >= cfg.maxLongPolls) && caughtUp == (View().groups[gid].total <= offset)
    {
      full, caughtUp := longPolls >= cfg.maxLongPolls, groups[gid].total <= offset;
    }

    method Park(gid: GroupId, rid: ReadId)
      requires Valid() && gid in groups
      modifies this`longPolls, groups[gid]
      ensures Valid() && gid in old(View()).groups
      ensures View() == var c := old(View());
                        var g := c.groups[gid];
                        c.(longPolls := c.longPolls + 1, groups := c.groups[gid := g.(waiters := g.waiters + {rid})])
    {
      hide WellFormed, GroupRuntime.View;
      longPolls := longPolls + 1;
      groups[gid].AddWaiter(rid);
      assert Views() == old(Views())[gid := groups[gid].View()];
    }

    method Unpark(gid: GroupId, rid: ReadId)
      requires Valid() && gid in groups && longPolls > 0
      modifies this`longPolls, groups[gid]
      ensures Valid() && gid in old(View()).groups && old(View()).longPolls > 0
      ensures View() == var c := old(View());
                        var g := c.groups[gid];
                        c.(longPolls := c.longPolls - 1, groups := c.groups[gid := g.(waiters := g.waiters - {rid})])
    {
      hide WellFormed, GroupRuntime.View;
      longPolls := longPolls - 1;
      groups[gid].RemoveWaiter(rid);
      assert Views() == old(Views())[gid := groups[gid].View()];
    }

    /** A parked read resumes, woken or timed out. */
    method ReadResumed(gid: GroupId, position: Position, limit: int, principal: string, rid: ReadId, now: int)
      returns (reply: Reply)
      requires Valid() && gid in groups && longPolls > 0
      modifies this`longPolls, cursors, groups[gid]
      ensures Valid() && gid in old(View()).groups && old(View()).longPolls > 0
      ensures |old(View()).groups[gid].buffer| <= old(View()).groups[gid].total
      ensures (View(), reply) == ReadFinish(old(View()), cfg, gid, position, limit, principal, rid, now)
    {
      hide Valid, View, GroupRuntime.View, Serve;
      Unpark(gid, rid);
      reply := ServePage(gid, position, limit, principal, now);
    }

    // ----------------------------------------------------------- resubscribe

    method ResubscribeUntilSubscribe(principal: string, gid: GroupId, specs: seq<Spec>, admin: bool)
      returns (r: Result<seq<Item>>)
      requires Valid()
      modifies this`tokenCounter, this`supply
      ensures Valid()
      ensures (View(), r) == ResubscribeBegin(old(View()), cfg, principal, gid, specs, admin)
    {
      hide WellFormed, NewItems;
      var runtime := FindRuntime(principal, gid, admin);
      if runtime == null {
        return Err(SUBSCRIPTION_NOT_FOUND);
      }
      if runtime.status.Cancelled? || runtime.status.Expired? {
        return Err(SUBSCRIPTION_EXPIRED);
      }
      if |specs| > cfg.maxTopics {
        return Err(SUBSCRIPTION_LIMIT_EXCEEDED);
      }
      var items := BuildProspective(specs);
      if |items| < |specs| {
        return Err(Refusal(specs[|items|]));
      }
      assert specs[..|specs|] == specs;
      return Ok(items);
    }

    /** Builds items until a spec is refused, without touching the live group or its routing. */
    method BuildProspective(specs: seq<Spec>) returns (items: seq<Item>)
      requires Valid()
      modifies this`tokenCounter, this`supply
      ensures Valid()
      ensures var c := old(View());
              var n := Accepted(specs, cfg);
              && items == NewItems(specs[..n], c.tokenCounter, c.supply)
              && View() == c.(tokenCounter := c.tokenCounter + n, supply := c.supply + n)
    {
      hide GroupRuntime.View, NewItems;
      items := DrawItems(specs);
      assert Views() == old(Views());
    }

    method DrawItems(specs: seq<Spec>) returns (items: seq<Item>)
      modifies this`tokenCounter, this`supply
      ensures var n := Accepted(specs, cfg);
              && items == NewItems(specs[..n], old(tokenCounter), old(supply))
              && tokenCounter == old(tokenCounter) + n && supply == old(supply) + n
    {
      hide Accepted;
      items := [];
      for n := 0 to |specs|
        invariant items == NewItems(specs[..n], old(tokenCounter), old(supply))
        invariant tokenCounter == old(tokenCounter) + n && supply == old(supply) + n
        invariant forall i | 0 <= i < n :: Acceptable(specs[i], cfg)
      {
        if !Acceptable(specs[n], cfg) {
          AcceptedIs(specs, cfg, n);
          return;
        }
        NewItemsSnoc(specs, old(tokenCounter), old(supply), n);
        tokenCounter := tokenCounter + 1;
        items := items +
          [Item(supply, specs[n].topic, specs[n].fields, specs[n].options, tokenCounter, ItemStatus.Starting, 0)];
        supply := supply + 1;
      }
      assert specs[..|specs|] == specs;
      AcceptedIs(specs, cfg, |specs|);
    }

    method ResubscribeRollback(items: seq<Item>)
      requires Valid()
      modifies this`tokenMap
      ensures Valid() && View() == ResubscribeAbort(old(View()), items)
    {
      tokenMap := tokenMap - (set item <- items :: item.token);
    }

    method ResubscribeSwap(gid: GroupId, items: seq<Item>)
      requires Valid() && gid in groups
      modifies this`tokenMap, this`pending, cursors, groups[gid]
      ensures Valid() && View() == ResubscribeCommit(old(View()), gid, items)
    {
      hide Invalidate, Route, Recompute, Tokens, Valid, View, GroupRuntime.View;
      var retired := CarriedBy(gid);
      Detach(gid, retired, true);
      RouteItems(gid, items);
      ReplaceGroup(gid, items);
    }

    method CarriedBy(gid: GroupId) returns (tokens: set<Token>)
      requires Valid() && gid in groups
      ensures gid in View().groups && tokens == Tokens(View().groups[gid].items)
    {
      tokens := groups[gid].ItemTokens();
    }

    /** Tokens stop being routed, may be left to be unsubscribed, and the group's cursors are destroyed. */
    method Detach(gid: GroupId, tokens: set<Token>, retry: bool)
      requires Valid() && gid in groups
      modifies this`tokenMap, this`pending, cursors
      ensures Valid() && gid in View().groups
      ensures View() == var c := old(View());
                        c.(tokenMap := c.tokenMap - tokens, pending := if retry then c.pending + tokens else c.pending,
                           cursors := Invalidate(c.cursors, gid))
    {
      if retry {
        pending := pending + tokens;
      }
      tokenMap := tokenMap - tokens;
      cursors.InvalidateSubscription(gid);
      assert Views() == old(Views());
    }

    method ReplaceGroup(gid: GroupId, items: seq<Item>)
      requires Valid() && gid in groups
      modifies groups[gid]
      ensures Valid() && gid in old(View()).groups
      ensures View() == var c := old(View());
                        c.(groups := c.groups[gid := NextGeneration(c.groups[gid], items,
                                                                    Recompute(items, GroupStatus.Starting))])
    {
      hide Recompute, GroupRuntime.View;
      groups[gid].Replace(items);
      assert Views() == old(Views())[gid := groups[gid].View()];
    }

    method CancelGroup(gid: GroupId)
      requires Valid() && gid in groups
      modifies groups[gid]
      ensures Valid() && gid in old(View()).groups
      ensures View() == var c := old(View());
                        var g := c.groups[gid];
                        c.(groups := c.groups[gid := g.(status := GroupStatus.Cancelled,
                                                        items := WithStatus(g.items, ItemStatus.Cancelled),
                                                          waiters := {})])
    {
      hide GroupRuntime.View, WithStatus;
      groups[gid].Cancel();
      assert Views() == old(Views())[gid := groups[gid].View()];
    }

    method ExpireGroup(gid: GroupId)
      requires Valid() && gid in groups
      modifies groups[gid]
      ensures Valid() && gid in old(View()).groups
      ensures View() == var c := old(View());
                        var g := c.groups[gid];
                        c.(groups := c.groups[gid := g.(status := GroupStatus.Expired,
                                                        items := WithStatus(g.items, ItemStatus.Expired))])
    {
      hide GroupRuntime.View, WithStatus;
      groups[gid].Expire();
      assert Views() == old(Views())[gid := groups[gid].View()];
    }

    method RouteItems(gid: GroupId, items: seq<Item>)
      requires Valid()
      modifies this`tokenMap
      ensures Valid() && View() == old(View()).(tokenMap := Route(old(View()).tokenMap, gid, items))
    {
      assert items[..0] == [];
      for n := 0 to |items|
        invariant tokenMap == Route(old(tokenMap), gid, items[..n])
      {
        RouteSnoc(old(tokenMap), gid, items[..n], items[n]);
        assert items[..n + 1] == items[..n] + [items[n]];
        tokenMap := tokenMap[items[n].token := (gid, items[n].id)];
      }
      assert items[..|items|] == items;
      assert Views() == old(Views());
    }

    // ------------------------------------------------- cancel, expire, retry

    method CancelUntilUnsubscribe(principal: string, gid: GroupId, admin: bool) returns (r: Result<Option<set<Token>>>)
      requires Valid()
      ensures r == CancelBegin(View(), principal, gid, admin)
    {
      var runtime := FindRuntime(principal, gid, admin);
      if runtime == null {
        return Err(SUBSCRIPTION_NOT_FOUND);
      }
      if runtime.status.Cancelled? {
        return Ok(None);
      }
      var tokens := runtime.ItemTokens();
      return Ok(Some(tokens));
    }

    method CancelRest(gid: GroupId, tokens: set<Token>, ok: bool)
      requires Valid() && gid in groups
      modifies this`tokenMap, this`pending, cursors, groups[gid]
      ensures Valid() && gid in old(View()).groups && View() == CancelFinish(old(View()), gid, tokens, ok)
    {
      hide Invalidate, Tokens, Valid, View, WithStatus;
      Detach(gid, tokens, !ok);
      CancelGroup(gid);
    }

    method ExpireRest(gid: GroupId, tokens: set<Token>, ok: bool)
      requires Valid() && gid in groups
      modifies this`tokenMap, this`pending, cursors, groups[gid]
      ensures Valid() && gid in old(View()).groups && View() == ExpireFinish(old(View()), gid, tokens, ok)
    {
      hide Invalidate, Tokens, Valid, View, WithStatus;
      ExpireGroup(gid);
      Detach(gid, tokens, !ok);
    }

    /** One uninterrupted retry pass; `answers` says which unsubscribes succeed. */
    method RetryPendingUnsubscribes(answers: map<Token, bool>) returns (succeeded: nat)
      requires Valid() && pending <= answers.Keys
      modifies this`pending
      ensures Valid() && View() == old(View()).(pending := set t <- old(pending) | !answers[t])
      ensures succeeded + |pending| == |old(pending)|
      ensures (forall t <- old(pending) :: answers[t]) ==> pending == {}
    {
      succeeded := 0;
      var todo := pending;
      while todo != {}
        invariant todo <= pending <= old(pending)
        invariant forall t <- old(pending) :: t in pending <==> (t in todo || !answers[t])
        invariant succeeded + |pending| == |old(pending)|
        decreases todo
      {
        var token :| token in todo;
        todo := todo - {token};
        if answers[token] {
          pending := pending - {token};
          succeeded := succeeded + 1;
        }
      }
      assert pending == set t <- old(pending) | !answers[t];
    }

    // --------------------------------------------------------------- restore

    method RestoreUntilSubscribe(gid: GroupId)
      requires Valid() && gid in groups
      modifies this`tokenMap, this`tokenCounter, this`pending, cursors, groups[gid]
      ensures Valid() && gid in old(View()).groups && View() == RestoreBegin(old(View()), gid)
    {
      hide Invalidate, Route, Tokens, Valid, View, Renewed;
      var retired := CarriedBy(gid);
      Detach(gid, retired, false);
      var items := RenewGroup(gid);
      RouteItems(gid, items);
    }

    /** Every item gets a new token and starts over, in a new generation. */
    method RenewGroup(gid: GroupId) returns (items: seq<Item>)
      requires Valid() && gid in groups
      modifies this`tokenCounter, groups[gid]
      ensures Valid() && gid in old(View()).groups
      ensures items == Renewed(old(View()).groups[gid].items, old(View()).tokenCounter)
      ensures View() == var c := old(View());
                        c.(groups := c.groups[gid := NextGeneration(c.groups[gid], items, GroupStatus.Starting)],
                           tokenCounter := c.tokenCounter + |items|)
    {
      hide GroupRuntime.View, View, Valid, Renewed, NextGeneration;
      items := RedrawGroup(gid);
      StartRenewed(gid, items);
    }

    method RedrawGroup(gid: GroupId) returns (items: seq<Item>)
      requires Valid() && gid in groups
      modifies this`tokenCounter
      ensures Valid() && gid in old(View()).groups
      ensures items == Renewed(old(View()).groups[gid].items, old(View()).tokenCounter)
      ensures View() == old(View()).(tokenCounter := old(View()).tokenCounter + |items|)
    {
      assert groups[gid].items == View().groups[gid].items;
      hide GroupRuntime.View, Renewed;
      items := Redraw(groups[gid].items);
      assert Views() == old(Views());
    }

    method StartRenewed(gid: GroupId, items: seq<Item>)
      requires Valid() && gid in groups
      modifies groups[gid]
      ensures Valid() && gid in old(View()).groups
      ensures View() == var c := old(View());
                        c.(groups := c.groups[gid := NextGeneration(c.groups[gid], items, GroupStatus.Starting)])
    {
      groups[gid].StartGeneration(items, GroupStatus.Starting);
      assert Views() == old(Views())[gid := groups[gid].View()];
    }

    method Redraw(items: seq<Item>) returns (renewed: seq<Item>)
      modifies this`tokenCounter
      ensures renewed == Renewed(items, old(tokenCounter)) && tokenCounter == old(tokenCounter) + |items|
    {
      renewed := [];
      for n := 0 to |items|
        invariant |renewed| == n && tokenCounter == old(tokenCounter) + n
        invariant forall i | 0 <= i < n ::
                    renewed[i] == items[i].(token := old(tokenCounter) + 1 + i, status := ItemStatus.Starting,
                                            sequence := 0)
      {
        tokenCounter := tokenCounter + 1;
        renewed := renewed + [items[n].(token := tokenCounter, status := ItemStatus.Starting, sequence := 0)];
      }
      assert renewed == Renewed(items, old(tokenCounter));
    }

    method RestoreFailed(gid: GroupId, tokens: set<Token>)
      requires Valid() && gid in groups
      modifies this`tokenMap, groups[gid]
      ensures Valid() && View() == RestoreAbort(old(View()), gid, tokens)
    {
      tokenMap := tokenMap - tokens;
      groups[gid].status := GroupStatus.Failed;
      assert Views() == old(Views())[gid := groups[gid].View()];
    }
  }
}
