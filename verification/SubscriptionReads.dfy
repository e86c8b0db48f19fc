/** Reads keep the invariant: parking, resuming, cutting a page and replacing the cursor. */
module SubscriptionReads {
  import opened Wrappers
  import opened Cursors
  import opened SubscriptionModel
  import opened SubscriptionLog
  import opened SubscriptionSystem
  import opened SubscriptionLedger
  import opened SubscriptionFrames
  import opened SubscriptionSafety

  /** A page is the run of the log that starts at the offset asked for, or at the oldest retained event. */
  lemma PageIsLog(g: Group, log: Log, offset: nat, limit: int)
    requires Agrees(g, log)
    ensures |g.buffer| <= g.total && Base(g) == Excess(g.total, g.maxEvents)
    ensures var page := PageFrom(g, offset, limit);
            var first := Max(offset, Base(g));
            && |page| <= PageSize(limit)
            && (if page == [] then NextOffset(g, offset, limit) == offset && g.total <= first
                else NextOffset(g, offset, limit) == first + |page| <= g.total)
            && (forall i | 0 <= i < |page| :: first + i < |log| && page[i] == Stamp(log, first + i))
            && (offset <= g.total ==> NextOffset(g, offset, limit) <= g.total)
  {
  }

  /** The synchronous end of a read, as a step of the system. */
  ghost function Serving(s: System, gid: GroupId, position: Position, limit: int, principal: string, now: int): System
    requires gid in s.core.groups && |s.core.groups[gid].buffer| <= s.core.groups[gid].total
  {
    var (core, reply) := Serve(s.core, s.cfg, gid, position, limit, principal, now);
    var (cursor, _) := Successor(s.core, s.cfg, gid, position,
                                 NextOffset(s.core.groups[gid], position.offset, limit), principal, now);
    Record(s, core, gid, position, limit, reply, cursor)
  }

  lemma SuccessorBounded(s: System, gid: GroupId, position: Position, limit: int, principal: string, now: int)
    requires Inv(s) && gid in s.core.groups && |s.core.groups[gid].buffer| <= s.core.groups[gid].total
    requires Located(position, gid, s.issued)
    ensures var g := s.core.groups[gid];
            var (cursor, store) := Successor(s.core, s.cfg, gid, position, NextOffset(g, position.offset, limit),
                                             principal, now);
            && CursorsBounded(store, s.issued[cursor.id := cursor], s.core.groups, s.core.supply)
            && cursor.id !in s.issued && cursor.subscription == gid
            && cursor.offset == NextOffset(g, position.offset, limit)
            && cursor.generation == (if position.cursor.Some? then position.cursor.value.generation else g.generation)
  {
    hide RoutingSound, TokensKept, FeedsKept, OpsFit, ReadsParked, PagesAgree, LogsAgree, Agrees, Evict;
    var c := s.core;
    GroupInv(s, gid);
    PageIsLog(c.groups[gid], s.logs[(gid, c.groups[gid].generation)], position.offset, limit);
    var next := NextOffset(c.groups[gid], position.offset, limit);
    var (cursor, store) := Successor(c, s.cfg, gid, position, next, principal, now);
    if position.cursor.Some? {
      var used := position.cursor.value;
      assert Bounded(used, c.groups, c.supply);
      CursorsProgress(c.cursors, Forget(c.cursors, used.id), s.issued, c.groups, c.groups, c.supply, c.supply);
      CursorsInsert(Forget(c.cursors, used.id), s.issued, c.groups, c.supply, cursor, now);
    } else {
      CursorsInsert(c.cursors, s.issued, c.groups, c.supply, cursor, now);
    }
  }

  lemma ReadsReissued(s: System, cursor: Cursor)
    requires Inv(s) && cursor.id !in s.issued
    ensures ReadsParked(s.core.groups, s.ops, s.parked, s.issued[cursor.id := cursor])
  {
    hide LogsAgree, RoutingSound, TokensKept, FeedsKept, OpsFit, CursorsBounded, PagesAgree, Located;
    forall rid <- s.parked ensures ParkedFits(s.parked[rid], s.core.groups, s.ops, s.issued[cursor.id := cursor]) {
      assert ParkedFits(s.parked[rid], s.core.groups, s.ops, s.issued);
      LocatedStays(s.parked[rid].position, s.parked[rid].gid, s.issued, s.issued[cursor.id := cursor]);
    }
  }

  lemma PageRecorded(s: System, gid: GroupId, position: Position, limit: int, reply: Reply, cursor: Cursor)
    requires Inv(s) && gid in s.core.groups && |s.core.groups[gid].buffer| <= s.core.groups[gid].total
    requires Located(position, gid, s.issued) && cursor.id !in s.issued
    requires var g := s.core.groups[gid];
             && reply == Reply(gid, g.generation, PageFrom(g, position.offset, limit), g.dropped, cursor.id,
                               position.offset < Base(g))
             && cursor.subscription == gid && cursor.offset == NextOffset(g, position.offset, limit)
             && cursor.generation == (if position.cursor.Some? then position.cursor.value.generation else g.generation)
    ensures PagesAgree(Record(s, s.core, gid, position, limit, reply, cursor).pages, s.logs,
                       s.issued[cursor.id := cursor])
  {
    hide LogsAgree, RoutingSound, TokensKept, FeedsKept, OpsFit, CursorsBounded, ReadsParked, Agrees, PageAgrees;
    var g := s.core.groups[gid];
    var issued' := s.issued[cursor.id := cursor];
    GroupInv(s, gid);
    PagesStay(s.pages, s.logs, s.logs, s.issued, issued');
    var v := Served(position, g.total, g.maxEvents, reply, NextOffset(g, position.offset, limit));
    LocatedInside(s, gid, position);
    NewPage(g, s.logs, position, limit, v, s.issued, cursor);
  }

  /** A cursor of the current generation is not ahead of the group. */
  lemma LocatedInside(s: System, gid: GroupId, position: Position)
    requires Inv(s) && gid in s.core.groups && Located(position, gid, s.issued)
    ensures position.cursor.None? || position.cursor.value.generation == s.core.groups[gid].generation ==>
              position.offset <= s.core.groups[gid].total
  {
    hide LogsAgree, RoutingSound, TokensKept, FeedsKept, OpsFit, ReadsParked, PagesAgree;
    if position.cursor.Some? {
      assert Bounded(s.issued[position.cursor.value.id], s.core.groups, s.core.supply);
    }
  }

  lemma NewPage(g: Group, logs: Logs, position: Position, limit: int, v: Served, issued: map<CursorId, Cursor>,
                cursor: Cursor)
    requires var gid := cursor.subscription;
             && GroupAgrees(gid, g, logs)
             && |g.buffer| <= g.total
             && Located(position, gid, issued) && cursor.id !in issued
             && v == Served(position, g.total, g.maxEvents,
                            Reply(gid, g.generation, PageFrom(g, position.offset, limit), g.dropped, cursor.id,
                                  position.offset < Base(g)),
                            NextOffset(g, position.offset, limit))
             && cursor.offset == v.newOffset
             && cursor.generation == (if position.cursor.Some? then position.cursor.value.generation else g.generation)
    requires position.cursor.None? || position.cursor.value.generation == g.generation ==> position.offset <= g.total
    ensures PageAgrees(v, logs, issued[cursor.id := cursor])
  {
    hide Stamp, PageFrom, NextOffset, Window, Views, Evicted;
    PageIsLog(g, logs[(cursor.subscription, g.generation)], position.offset, limit);
    LocatedStays(position, cursor.subscription, issued, issued[cursor.id := cursor]);
  }

  lemma ServingKeeps(s: System, gid: GroupId, position: Position, limit: int, principal: string, now: int)
    requires Inv(s) && gid in s.core.groups && |s.core.groups[gid].buffer| <= s.core.groups[gid].total
    requires Located(position, gid, s.issued)
    ensures Inv(Serving(s, gid, position, limit, principal, now))
  {
    hide LogsAgree, RoutingSound, TokensKept, FeedsKept, OpsFit, CursorsBounded, ReadsParked, PagesAgree;
    hide Carried, Prospective, Unaccepted, PageFrom, NextOffset, Successor, Located;
    var g := s.core.groups[gid];
    var (cursor, store) := Successor(s.core, s.cfg, gid, position, NextOffset(g, position.offset, limit), principal,
                                     now);
    var (core, reply) := Serve(s.core, s.cfg, gid, position, limit, principal, now);
    SuccessorBounded(s, gid, position, limit, principal, now);
    ReadsReissued(s, cursor);
    PageRecorded(s, gid, position, limit, reply, cursor);
  }

  /** Resolving a cursor may destroy it, and changes nothing else. */
  lemma ResolveKeeps(s: System, id: CursorId, principal: string, now: int)
    requires Inv(s)
    ensures Inv(s.(core := s.core.(cursors := AfterResolve(s.core.cursors, id, principal, now))))
  {
    hide LogsAgree, RoutingSound, TokensKept, FeedsKept, OpsFit, CursorsBounded, ReadsParked, PagesAgree;
    CursorsProgress(s.core.cursors, AfterResolve(s.core.cursors, id, principal, now), s.issued,
                    s.core.groups, s.core.groups, s.core.supply, s.core.supply);
  }

  lemma OneMoreKey<K, V>(m: map<K, V>, key: K, value: V)
    requires key !in m
    ensures |m[key := value]| == |m| + 1
  {
    assert m[key := value].Keys == m.Keys + {key};
  }

  /** A read parks only when it has seen every event there is. */
  lemma ParkKeeps(s: System, gid: GroupId, r: Parked, rid: ReadId)
    requires Inv(s) && r.gid == gid && rid !in s.parked && gid in s.core.groups
    requires !(gid in s.ops && s.ops[gid].Creating?)
    requires Located(r.position, gid, s.issued)
    requires s.core.groups[gid].total <= r.position.offset && s.core.longPolls < s.cfg.maxLongPolls
    ensures var g := s.core.groups[gid];
            Inv(s.(core := s.core.(longPolls := s.core.longPolls + 1,
                                   groups := s.core.groups[gid := g.(waiters := g.waiters + {rid})]),
                   parked := s.parked[rid := r]))
  {
    hide LogsAgree, RoutingSound, TokensKept, FeedsKept, OpsFit, CursorsBounded, ReadsParked, PagesAgree;
    hide Carried, Prospective, Unaccepted, Located;
    var g := s.core.groups[gid];
    var g' := g.(waiters := g.waiters + {rid});
    WaitersOnly(s, gid, g');
    ParkedReads(s, gid, r, rid);
    OneMoreKey(s.parked, rid, r);
  }

  lemma ParkedReads(s: System, gid: GroupId, r: Parked, rid: ReadId)
    requires Inv(s) && r.gid == gid && rid !in s.parked && gid in s.core.groups
    requires !(gid in s.ops && s.ops[gid].Creating?)
    requires Located(r.position, gid, s.issued)
    requires s.core.groups[gid].total <= r.position.offset
    ensures var g := s.core.groups[gid];
            ReadsParked(s.core.groups[gid := g.(waiters := g.waiters + {rid})], s.ops, s.parked[rid := r], s.issued)
  {
    hide LogsAgree, RoutingSound, TokensKept, FeedsKept, OpsFit, CursorsBounded, PagesAgree, Located;
    var g := s.core.groups[gid];
    var groups', parked' := s.core.groups[gid := g.(waiters := g.waiters + {rid})], s.parked[rid := r];
    forall q <- parked' ensures ParkedFits(parked'[q], groups', s.ops, s.issued) {
      if q != rid {
        assert ParkedFits(s.parked[q], s.core.groups, s.ops, s.issued);
      }
    }
    forall h <- groups' ensures WaitersCaughtUp(h, groups'[h], parked') {
      assert WaitersCaughtUp(h, s.core.groups[h], s.parked);
    }
  }

  /** A change of waiters matters to the parked reads alone. */
  lemma WaitersOnly(s: System, gid: GroupId, g': Group)
    requires Inv(s) && gid in s.core.groups && g' == s.core.groups[gid].(waiters := g'.waiters)
    ensures var groups' := s.core.groups[gid := g'];
            && LogsAgree(groups', s.logs, s.core.supply)
            && RoutingSound(groups', s.core.tokenMap, s.core.supply)
            && Carried(groups') == Carried(s.core.groups)
            && OpsFit(groups', s.core.tokenMap.Keys, s.ops)
            && CursorsBounded(s.core.cursors, s.issued, groups', s.core.supply)
  {
    hide LogsAgree, RoutingSound, TokensKept, FeedsKept, OpsFit, CursorsBounded, ReadsParked, PagesAgree;
    hide Carried, Prospective, Unaccepted, Tokens;
    var c := s.core;
    var groups' := c.groups[gid := g'];
    CarriedSame(c.groups, gid, g');
    LogsRelabel(c.groups, s.logs, c.supply, gid, g');
    RoutingWaiters(s, gid, g');
    if gid in s.ops {
      OpInFlight(s, gid);
    }
    OpsAfter(s, gid, groups', c.tokenMap.Keys, s.ops);
    CursorsProgress(c.cursors, c.cursors, s.issued, c.groups, groups', c.supply, c.supply);
  }

  lemma RoutingWaiters(s: System, gid: GroupId, g': Group)
    requires Inv(s) && gid in s.core.groups && g' == s.core.groups[gid].(waiters := g'.waiters)
    ensures RoutingSound(s.core.groups[gid := g'], s.core.tokenMap, s.core.supply)
  {
    hide LogsAgree, TokensKept, FeedsKept, OpsFit, CursorsBounded, ReadsParked, PagesAgree;
    RoutingRelabel(s.core.groups, s.core.tokenMap, s.core.supply, gid, g');
  }

  lemma ReadKeeps(s: System, request: ReadRequest, rid: ReadId, now: int)
    requires Inv(s) && rid !in s.parked && !(request.subscription in s.ops && s.ops[request.subscription].Creating?)
    requires request.subscription in s.core.groups ==>
               |s.core.groups[request.subscription].buffer| <= s.core.groups[request.subscription].total
    ensures Inv(OnRead(s, request, rid, now))
  {
    hide LogsAgree, RoutingSound, TokensKept, FeedsKept, OpsFit, CursorsBounded, ReadsParked, PagesAgree;
    hide Carried, Prospective, Unaccepted, PageFrom, NextOffset, Successor;
    var c := s.core;
    if ReadError(c, request).None? && request.mode.Changes? {
      var gid := request.subscription;
      if request.cursor.None? {
        ReadFromKeeps(s, request, rid, Position(None, 0), now);
      } else {
        var id := request.cursor.value;
        ResolveKeeps(s, id, request.principal, now);
        if CursorAccepted(c, request, id, now) {
          CursorLocates(s, request, id, now);
          ReadFromKeeps(s, request, rid, Position(Some(c.cursors.entries[id]), c.cursors.entries[id].offset), now);
        }
      }
    }
  }

  lemma CursorLocates(s: System, request: ReadRequest, id: CursorId, now: int)
    requires Inv(s) && request.subscription in s.core.groups && CursorAccepted(s.core, request, id, now)
    ensures var cursor := s.core.cursors.entries[id];
            Located(Position(Some(cursor), cursor.offset), request.subscription, s.issued)
    ensures AfterResolve(s.core.cursors, id, request.principal, now) == s.core.cursors
  {
    hide LogsAgree, RoutingSound, TokensKept, FeedsKept, OpsFit, ReadsParked, PagesAgree;
  }

  /** The rest of a read, once its position is known. */
  ghost function ReadFrom(s: System, request: ReadRequest, rid: ReadId, position: Position, now: int): System
    requires request.subscription in s.core.groups
    requires var g := s.core.groups[request.subscription]; |g.buffer| <= g.total
  {
    var gid := request.subscription;
    var g := s.core.groups[gid];
    if request.wait && s.core.longPolls >= s.cfg.maxLongPolls then s
    else if request.wait && g.total <= position.offset then
      s.(core := s.core.(longPolls := s.core.longPolls + 1,
                         groups := s.core.groups[gid := g.(waiters := g.waiters + {rid})]),
         parked := s.parked[rid := Parked(gid, position, request.limit, request.principal)])
    else Serving(s, gid, position, request.limit, request.principal, now)
  }

  lemma ReadFromKeeps(s: System, request: ReadRequest, rid: ReadId, position: Position, now: int)
    requires Inv(s) && request.subscription in s.core.groups && Located(position, request.subscription, s.issued)
    requires var g := s.core.groups[request.subscription]; |g.buffer| <= g.total
    requires rid !in s.parked && !(request.subscription in s.ops && s.ops[request.subscription].Creating?)
    ensures Inv(ReadFrom(s, request, rid, position, now))
  {
    hide LogsAgree, RoutingSound, TokensKept, FeedsKept, OpsFit, CursorsBounded, ReadsParked, PagesAgree;
    hide Serving, Located;
    var gid := request.subscription;
    if !(request.wait && s.core.longPolls >= s.cfg.maxLongPolls) {
      if request.wait && s.core.groups[gid].total <= position.offset {
        ParkKeeps(s, gid, Parked(gid, position, request.limit, request.principal), rid);
      } else {
        ServingKeeps(s, gid, position, request.limit, request.principal, now);
      }
    }
  }

  /** The state a parked read resumes in: its slot and its waiter are gone. */
  ghost function Unparked(s: System, rid: ReadId): System
    requires rid in s.parked && s.parked[rid].gid in s.core.groups && s.core.longPolls > 0
  {
    var gid := s.parked[rid].gid;
    var g := s.core.groups[gid];
    s.(core := s.core.(longPolls := s.core.longPolls - 1,
                       groups := s.core.groups[gid := g.(waiters := g.waiters - {rid})]),
       parked := s.parked - {rid})
  }

  lemma UnparkKeeps(s: System, rid: ReadId)
    requires Inv(s) && rid in s.parked && s.parked[rid].gid in s.core.groups && s.core.longPolls > 0
    ensures Inv(Unparked(s, rid))
  {
    hide LogsAgree, RoutingSound, TokensKept, FeedsKept, OpsFit, CursorsBounded, ReadsParked, PagesAgree;
    hide Carried, Prospective, Unaccepted, Located;
    var gid := s.parked[rid].gid;
    var g := s.core.groups[gid];
    WaitersOnly(s, gid, g.(waiters := g.waiters - {rid}));
    UnparkedReads(s, rid);
    assert (s.parked - {rid}).Keys == s.parked.Keys - {rid};
  }

  lemma UnparkedReads(s: System, rid: ReadId)
    requires Inv(s) && rid in s.parked && s.parked[rid].gid in s.core.groups
    ensures var gid := s.parked[rid].gid;
            var g := s.core.groups[gid];
            ReadsParked(s.core.groups[gid := g.(waiters := g.waiters - {rid})], s.ops, s.parked - {rid}, s.issued)
  {
    hide LogsAgree, RoutingSound, TokensKept, FeedsKept, OpsFit, CursorsBounded, PagesAgree, Located;
    var gid := s.parked[rid].gid;
    var g := s.core.groups[gid];
    var groups', parked' := s.core.groups[gid := g.(waiters := g.waiters - {rid})], s.parked - {rid};
    forall q <- parked' ensures ParkedFits(parked'[q], groups', s.ops, s.issued) {
      assert ParkedFits(s.parked[q], s.core.groups, s.ops, s.issued);
    }
    forall h <- groups' ensures WaitersCaughtUp(h, groups'[h], parked') {
      assert WaitersCaughtUp(h, s.core.groups[h], s.parked);
      assert WaitersCaughtUp(gid, s.core.groups[gid], s.parked);
    }
  }

  lemma ReadDoneKeeps(s: System, rid: ReadId, now: int)
    requires Inv(s) && rid in s.parked && s.core.longPolls > 0 && s.parked[rid].gid in s.core.groups
    requires |s.core.groups[s.parked[rid].gid].buffer| <= s.core.groups[s.parked[rid].gid].total
    ensures Inv(OnReadDone(s, rid, now))
  {
    hide LogsAgree, RoutingSound, TokensKept, FeedsKept, OpsFit, CursorsBounded, ReadsParked, PagesAgree;
    hide Carried, Prospective, Unaccepted, Located, PageFrom;
    var r := s.parked[rid];
    UnparkKeeps(s, rid);
    ParkedLocated(s, rid);
    var s1 := Unparked(s, rid);
    ServingKeeps(s1, r.gid, r.position, r.limit, r.principal, now);
    SamePage(s.core.groups[r.gid], s1.core.groups[r.gid], r.position.offset, r.limit);
    assert OnReadDone(s, rid, now) == Serving(s1, r.gid, r.position, r.limit, r.principal, now);
  }

  lemma SamePage(g: Group, g': Group, offset: nat, limit: int)
    requires g' == g.(waiters := g'.waiters) && |g.buffer| <= g.total
    ensures PageFrom(g', offset, limit) == PageFrom(g, offset, limit)
    ensures NextOffset(g', offset, limit) == NextOffset(g, offset, limit)
  {
  }

  lemma ParkedLocated(s: System, rid: ReadId)
    requires Inv(s) && rid in s.parked
    ensures Located(s.parked[rid].position, s.parked[rid].gid, s.issued)
  {
    hide LogsAgree, RoutingSound, TokensKept, FeedsKept, OpsFit, CursorsBounded, PagesAgree, Located;
    assert ParkedFits(s.parked[rid], s.core.groups, s.ops, s.issued);
  }
}
