/** How each kind of step treats the logs, the routing, the cursors, the parked reads and the served pages. */
module SubscriptionFrames {
  import opened Wrappers
  import opened Cursors
  import opened SubscriptionModel
  import opened SubscriptionLog
  import opened SubscriptionSystem
  import opened SubscriptionLedger

  /** The two maps agree away from one key. */
  ghost predicate Elsewhere<K, V>(m: map<K, V>, m': map<K, V>, key: K) {
    && (forall k | k in m && k != key :: k in m' && m'[k] == m[k])
    && (forall k | k in m' && k != key :: k in m)
  }

  lemma ElsewherePut<K, V>(m: map<K, V>, key: K, value: V)
    ensures Elsewhere(m, m[key := value], key)
    ensures Elsewhere(m, m, key)
    ensures Elsewhere(m, m - {key}, key)
  {
  }

  // ------------------------------------------------------------------- logs

  lemma {:induction false} EvictedFrame(logs: Logs, logs': Logs, gid: GroupId, n: nat, max: nat)
    requires forall k: nat | k <= n :: ((gid, k) in logs <==> (gid, k) in logs')
    requires forall k: nat | k <= n && (gid, k) in logs :: |logs[(gid, k)]| == |logs'[(gid, k)]|
    ensures Evicted(logs, gid, n, max) == Evicted(logs', gid, n, max)
  {
    if n > 0 {
      EvictedFrame(logs, logs', gid, n - 1, max);
    }
  }

  lemma GroupFrame(gid: GroupId, g: Group, logs: Logs, logs': Logs)
    requires GroupAgrees(gid, g, logs)
    requires forall n: nat :: ((gid, n) in logs <==> (gid, n) in logs')
    requires forall n: nat | (gid, n) in logs :: logs[(gid, n)] == logs'[(gid, n)]
    ensures GroupAgrees(gid, g, logs')
  {
    EvictedFrame(logs, logs', gid, g.generation, g.maxEvents);
  }

  /** What a step may do to a group without touching its events. */
  ghost predicate Relabelled(g: Group, g': Group) {
    && g' == g.(status := g'.status, items := g'.items, waiters := g'.waiters)
    && |g'.items| == |g.items|
    && forall i | 0 <= i < |g.items| :: g'.items[i] == g.items[i].(status := g'.items[i].status)
  }

  lemma LogsRelabel(groups: Groups, logs: Logs, supply: nat, gid: GroupId, g: Group)
    requires LogsAgree(groups, logs, supply)
    requires gid in groups && Relabelled(groups[gid], g)
    ensures LogsAgree(groups[gid := g], logs, supply)
  {
    RelabelAgrees(groups[gid], g, logs[(gid, g.generation)]);
  }

  lemma LogsDeliver(groups: Groups, logs: Logs, supply: nat, gid: GroupId, i: nat, event: Event)
    requires LogsAgree(groups, logs, supply)
    requires gid in groups && i < |groups[gid].items| && event.signal.Data?
    ensures var g := groups[gid];
            (gid, g.generation) in logs
            && LogsAgree(groups[gid := Deliver(g, i, event)],
                         logs[(gid, g.generation) := logs[(gid, g.generation)] + [LogEntry(g.items[i].id, event)]],
                         supply)
  {
    var g := groups[gid];
    var g' := Deliver(g, i, event);
    var key := (gid, g.generation);
    var log' := logs[key] + [LogEntry(g.items[i].id, event)];
    var logs' := logs[key := log'];
    DeliverAgrees(g, logs[key], i, event);
    EvictedFrame(logs, logs', gid, g.generation - 1, g.maxEvents);
    assert GroupAgrees(gid, g', logs');
    LogsOthers(groups, logs, supply, gid, g', key, log');
  }

  /** One group and one of its logs change; the rest is framed. */
  lemma LogsOthers(groups: Groups, logs: Logs, supply: nat, gid: GroupId, g': Group, key: (GroupId, nat), log': Log)
    requires LogsAgree(groups, logs, supply)
    requires key.0 == gid && key.1 == g'.generation && gid in groups ==> groups[gid].generation <= g'.generation
    requires key == (gid, g'.generation) && gid < supply
    requires gid !in groups ==> forall n: nat :: (gid, n) !in logs
    requires GroupAgrees(gid, g', logs[key := log'])
    ensures LogsAgree(groups[gid := g'], logs[key := log'], supply)
  {
    var groups' := groups[gid := g'];
    forall h <- groups' ensures h < supply && GroupAgrees(h, groups'[h], logs[key := log']) {
      if h != gid {
        GroupFrame(h, groups[h], logs, logs[key := log']);
      }
    }
  }

  /** A group starts a generation with an empty log. */
  lemma LogsFresh(groups: Groups, logs: Logs, supply: nat, gid: GroupId, g': Group)
    requires LogsAgree(groups, logs, supply)
    requires gid in groups
    requires g'.generation == groups[gid].generation + 1 && g'.dropped == groups[gid].dropped
    requires g'.maxEvents == groups[gid].maxEvents
    requires Distinct(g'.items) && g'.total == 0 && g'.buffer == [] && g'.latest == map[]
    requires forall item <- g'.items :: item.sequence == 0
    ensures LogsAgree(groups[gid := g'], logs[(gid, g'.generation) := []], supply)
  {
    EmptyAgrees(g');
    var logs' := logs[(gid, g'.generation) := []];
    EvictedFrame(logs, logs', gid, groups[gid].generation, g'.maxEvents);
    LogsOthers(groups, logs, supply, gid, g', (gid, g'.generation), []);
  }

  lemma LogsCreate(groups: Groups, logs: Logs, supply: nat, supply': nat, g': Group)
    requires LogsAgree(groups, logs, supply) && supply < supply'
    requires g'.generation == 1 && g'.dropped == 0 && g'.maxEvents >= 1
    requires Distinct(g'.items) && g'.total == 0 && g'.buffer == [] && g'.latest == map[]
    requires forall item <- g'.items :: item.sequence == 0
    ensures LogsAgree(groups[supply := g'], logs[(supply, 1) := []], supply')
  {
    EmptyAgrees(g');
    var logs' := logs[(supply, 1) := []];
    assert Evicted(logs', supply, 0, g'.maxEvents) == 0;
    LogsOthers(groups, logs, supply', supply, g', (supply, 1), []);
  }

  lemma LogsSupply(groups: Groups, logs: Logs, supply: nat, supply': nat)
    requires LogsAgree(groups, logs, supply) && supply <= supply'
    ensures LogsAgree(groups, logs, supply')
  {
  }

  lemma LogsDrop(groups: Groups, logs: Logs, supply: nat, gid: GroupId)
    requires LogsAgree(groups, logs, supply)
    ensures LogsAgree(groups - {gid}, logs, supply)
  {
  }

  // ---------------------------------------------------------------- routing

  lemma RoutingDrop(groups: Groups, tokenMap: map<Token, (GroupId, ItemId)>, supply: nat, gid: GroupId,
                    tokens: set<Token>)
    requires RoutingSound(groups, tokenMap, supply)
    ensures RoutingSound(groups - {gid}, tokenMap - tokens, supply)
  {
    var left := tokenMap - tokens;
    forall t <- left ensures left[t].0 < supply && EntrySound(groups - {gid}, t, left[t]) {
      assert EntrySound(groups, t, tokenMap[t]);
    }
  }

  lemma RoutingRelabel(groups: Groups, tokenMap: map<Token, (GroupId, ItemId)>, supply: nat, gid: GroupId, g': Group)
    requires RoutingSound(groups, tokenMap, supply)
    requires gid in groups && |g'.items| == |groups[gid].items|
    requires forall i | 0 <= i < |g'.items| ::
               g'.items[i].id == groups[gid].items[i].id && g'.items[i].token == groups[gid].items[i].token
    requires g'.status.Terminal() ==> groups[gid].status.Terminal() || forall t <- tokenMap :: tokenMap[t].0 != gid
    ensures RoutingSound(groups[gid := g'], tokenMap, supply)
  {
    forall t <- tokenMap ensures EntrySound(groups[gid := g'], t, tokenMap[t]) {
      assert EntrySound(groups, t, tokenMap[t]);
      if tokenMap[t].0 == gid {
        var i :| 0 <= i < |groups[gid].items| && groups[gid].items[i].id == tokenMap[t].1
          && groups[gid].items[i].token == t;
        assert g'.items[i].id == tokenMap[t].1 && g'.items[i].token == t;
      }
    }
  }

  /** Once the tokens a group carries are popped, nothing is routed to it. */
  lemma Unrouted(groups: Groups, tokenMap: map<Token, (GroupId, ItemId)>, supply: nat, gid: GroupId)
    requires RoutingSound(groups, tokenMap, supply) && gid in groups
    ensures var left := tokenMap - Tokens(groups[gid].items);
            RoutingSound(groups, left, supply) && forall t <- left :: left[t].0 != gid
  {
    var left := tokenMap - Tokens(groups[gid].items);
    forall t <- left ensures left[t].0 != gid {
      assert EntrySound(groups, t, tokenMap[t]);
    }
  }

  lemma RoutingAdopt(groups: Groups, tokenMap: map<Token, (GroupId, ItemId)>, supply: nat, gid: GroupId, g': Group)
    requires RoutingSound(groups, tokenMap, supply) && gid < supply
    requires forall t <- tokenMap :: tokenMap[t].0 != gid
    requires !g'.status.Terminal()
    ensures RoutingSound(groups[gid := g'], Route(tokenMap, gid, g'.items), supply)
  {
    var routed := Route(tokenMap, gid, g'.items);
    RouteKeys(tokenMap, gid, g'.items);
    forall t <- routed ensures routed[t].0 < supply && EntrySound(groups[gid := g'], t, routed[t]) {
      RouteEntries(tokenMap, gid, g'.items, t);
      if t !in Tokens(g'.items) {
        assert EntrySound(groups, t, tokenMap[t]);
      }
    }
  }

  /** Entries left behind by a refused create name an id no group will ever have. */
  lemma RoutingStray(groups: Groups, tokenMap: map<Token, (GroupId, ItemId)>, supply: nat, supply': nat,
                     gid: GroupId, items: seq<Item>)
    requires RoutingSound(groups, tokenMap, supply) && gid < supply' && supply <= supply' && gid !in groups
    ensures RoutingSound(groups, Route(tokenMap, gid, items), supply')
  {
    var routed := Route(tokenMap, gid, items);
    RouteKeys(tokenMap, gid, items);
    forall t <- routed ensures routed[t].0 < supply' && EntrySound(groups, t, routed[t]) {
      RouteEntries(tokenMap, gid, items, t);
      if t !in Tokens(items) {
        assert EntrySound(groups, t, tokenMap[t]);
      }
    }
  }

  // ---------------------------------------------------------------- cursors

  /** Generations never go back, and within one the log only grows. */
  ghost predicate Later(g: Group, g': Group) {
    g.generation < g'.generation || (g.generation == g'.generation && g.total <= g'.total)
  }

  /** Every group is one that was there, no earlier than it was, or is newly drawn. */
  ghost predicate Progress(groups: Groups, groups': Groups, supply: nat) {
    forall gid <- groups' :: if gid in groups then Later(groups[gid], groups'[gid]) else gid >= supply
  }

  lemma CursorsProgress(cursors: CursorStore, cursors': CursorStore, issued: map<CursorId, Cursor>,
                        groups: Groups, groups': Groups, supply: nat, supply': nat)
    requires CursorsBounded(cursors, issued, groups, supply)
    requires Progress(groups, groups', supply) && supply <= supply'
    requires cursors'.next == cursors.next && cursors'.entries.Keys <= cursors.entries.Keys
    requires forall k <- cursors'.entries :: cursors'.entries[k] == cursors.entries[k]
    ensures CursorsBounded(cursors', issued, groups', supply')
  {
    forall k <- issued ensures Bounded(issued[k], groups', supply') {
      assert Bounded(issued[k], groups, supply);
    }
  }

  lemma CursorsInsert(cursors: CursorStore, issued: map<CursorId, Cursor>, groups: Groups, supply: nat,
                      cursor: Cursor, now: int)
    requires CursorsBounded(cursors, issued, groups, supply)
    requires cursor.id == cursors.next && Bounded(cursor, groups, supply)
    ensures CursorsBounded(Insert(cursors, cursor, now), issued[cursor.id := cursor], groups, supply)
    ensures cursor.id !in issued
  {
    EvictionKeepsTheYoungest(cursors.entries[cursor.id := cursor], now);
  }

  // ------------------------------------------------------------------ reads

  lemma LocatedStays(position: Position, gid: GroupId, issued: map<CursorId, Cursor>, issued': map<CursorId, Cursor>)
    requires Located(position, gid, issued)
    requires issued.Keys <= issued'.Keys && forall k <- issued :: issued'[k] == issued[k]
    ensures Located(position, gid, issued')
  {
  }

  // ---------------------------------------------------- what a read leaves alone

  /** Only waiters, cursors, slots and pending unsubscribes change, and numbers are drawn. */
  ghost predicate Quiet(c: Core, c': Core) {
    && c'.tokenMap == c.tokenMap && c.supply <= c'.supply && c'.groups.Keys == c.groups.Keys
    && forall gid <- c.groups :: c'.groups[gid] == c.groups[gid].(waiters := c'.groups[gid].waiters)
  }

  /** A read draws no numbers but a cursor's and leaves nothing to be unsubscribed. */
  ghost predicate Looks(c: Core, c': Core) {
    Quiet(c, c') && c'.pending == c.pending && c'.supply == c.supply && c'.tokenCounter == c.tokenCounter
  }

  lemma ReadAtLooks(c: Core, cfg: Config, request: ReadRequest, position: Position, rid: ReadId, now: int)
    requires request.subscription in c.groups
    requires |c.groups[request.subscription].buffer| <= c.groups[request.subscription].total
    ensures Looks(c, ReadAt(c, cfg, request, position, rid, now).0)
  {
    hide Successor, PageFrom, NextOffset;
  }

  lemma ReadBeginLooks(c: Core, cfg: Config, request: ReadRequest, rid: ReadId, now: int)
    requires request.subscription in c.groups ==>
               |c.groups[request.subscription].buffer| <= c.groups[request.subscription].total
    ensures Looks(c, ReadBegin(c, cfg, request, rid, now).0)
  {
    hide ReadAt, AfterResolve, Presentable;
    if ReadError(c, request).None? && request.mode.Changes? {
      if request.cursor.None? {
        ReadAtLooks(c, cfg, request, Position(None, 0), rid, now);
      } else if CursorAccepted(c, request, request.cursor.value, now) {
        var id := request.cursor.value;
        CursorIsStored(c, request, id, now);
        ReadAtLooks(c.(cursors := AfterResolve(c.cursors, id, request.principal, now)), cfg, request,
                    Position(Some(c.cursors.entries[id]), c.cursors.entries[id].offset), rid, now);
      }
    }
  }

  lemma CursorIsStored(c: Core, request: ReadRequest, id: CursorId, now: int)
    requires request.subscription in c.groups && CursorAccepted(c, request, id, now)
    ensures id in c.cursors.entries
  {
  }

  lemma ReadFinishLooks(c: Core, cfg: Config, gid: GroupId, position: Position, limit: int, principal: string,
                        rid: ReadId, now: int)
    requires gid in c.groups && |c.groups[gid].buffer| <= c.groups[gid].total && c.longPolls > 0
    ensures Looks(c, ReadFinish(c, cfg, gid, position, limit, principal, rid, now).0)
  {
    hide Successor, PageFrom, NextOffset;
  }

  /** A page is only ever served on a group there is. */
  lemma PageIsOfGroup(c: Core, cfg: Config, request: ReadRequest, rid: ReadId, now: int)
    requires request.subscription in c.groups ==>
               |c.groups[request.subscription].buffer| <= c.groups[request.subscription].total
    ensures ReadBegin(c, cfg, request, rid, now).1.Page? ==> request.subscription in c.groups
  {
    hide Presentable, AfterResolve, Serve;
  }

  lemma ReadLooks(s: System, request: ReadRequest, rid: ReadId, now: int)
    requires request.subscription in s.core.groups ==>
               |s.core.groups[request.subscription].buffer| <= s.core.groups[request.subscription].total
    ensures var s' := OnRead(s, request, rid, now);
            Looks(s.core, s'.core) && s'.ops == s.ops && s'.live == s.live && s'.logs == s.logs
  {
    hide ReadBegin, Successor, NextOffset, Looks;
    ReadBeginLooks(s.core, s.cfg, request, rid, now);
    PageIsOfGroup(s.core, s.cfg, request, rid, now);
  }

  lemma ReadDoneLooks(s: System, rid: ReadId, now: int)
    requires rid in s.parked && s.core.longPolls > 0 && s.parked[rid].gid in s.core.groups
    requires |s.core.groups[s.parked[rid].gid].buffer| <= s.core.groups[s.parked[rid].gid].total
    ensures var s' := OnReadDone(s, rid, now);
            Looks(s.core, s'.core) && s'.ops == s.ops && s'.live == s.live && s'.logs == s.logs
  {
    hide ReadFinish, Successor, NextOffset, Looks;
    var r := s.parked[rid];
    ReadFinishLooks(s.core, s.cfg, r.gid, r.position, r.limit, r.principal, rid, now);
  }

  // ------------------------------------------------------------------ pages

  /** Every log there was is still there, extended at most. */
  ghost predicate LogsGrow(logs: Logs, logs': Logs) {
    forall gid: GroupId, n: nat | (gid, n) in logs :: (gid, n) in logs' && logs[(gid, n)] <= logs'[(gid, n)]
  }

  lemma PageStays(v: Served, logs: Logs, logs': Logs, issued: map<CursorId, Cursor>, issued': map<CursorId, Cursor>)
    requires PageAgrees(v, logs, issued)
    requires LogsGrow(logs, logs')
    requires issued.Keys <= issued'.Keys && forall k <- issued :: issued'[k] == issued[k]
    ensures PageAgrees(v, logs', issued')
  {
    var r := v.reply;
    var log, log' := logs[(r.subscription, r.generation)], logs'[(r.subscription, r.generation)];
    forall i | 0 <= i < |r.events| ensures r.events[i] == Stamp(log', First(v) + i) {
      StampPrefix(log, log', First(v) + i);
    }
  }

  lemma PagesStay(pages: seq<Served>, logs: Logs, logs': Logs, issued: map<CursorId, Cursor>,
                  issued': map<CursorId, Cursor>)
    requires PagesAgree(pages, logs, issued)
    requires LogsGrow(logs, logs')
    requires issued.Keys <= issued'.Keys && forall k <- issued :: issued'[k] == issued[k]
    ensures PagesAgree(pages, logs', issued')
  {
    forall v <- pages ensures PageAgrees(v, logs', issued') {
      PageStays(v, logs, logs', issued, issued');
    }
  }
}
