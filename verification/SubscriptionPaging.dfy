/** Reads chained by cursor deliver the log exactly once, minus what was evicted; stale cursors never read again. */
module SubscriptionPaging {
  import opened Wrappers
  import opened Cursors
  import opened SubscriptionModel
  import opened SubscriptionLog
  import opened SubscriptionSystem
  import opened SubscriptionFrames
  import opened SubscriptionSafety
  import opened SubscriptionReads
  import opened SubscriptionRuns
  import opened SubscriptionSteps

  /** Each read presents the cursor the one before it returned, all within one generation of one group. */
  ghost predicate Chained(rs: seq<Served>, gid: GroupId, generation: nat) {
    && (forall i | 0 <= i < |rs| :: rs[i].reply.subscription == gid && rs[i].reply.generation == generation)
    && (rs != [] && rs[0].position.cursor.Some? ==> rs[0].position.cursor.value.generation == generation)
    && (forall i | 0 < i < |rs| ::
          rs[i].position.cursor.Some? && rs[i].position.cursor.value.id == rs[i - 1].reply.cursor)
  }

  /** Position p had been evicted when the read that passed it was served. */
  ghost predicate Missed(rs: seq<Served>, p: nat) {
    exists i | 0 <= i < |rs| :: rs[i].position.offset <= p < Excess(rs[i].total, rs[i].window)
  }

  /** The events of the log between two positions, in order and once each, except the missed ones. */
  ghost function Delivered(log: Log, lo: nat, hi: nat, rs: seq<Served>): seq<BufferedEvent>
    requires lo <= hi <= |log|
    decreases hi
  {
    if lo == hi then []
    else if Missed(rs, hi - 1) then Delivered(log, lo, hi - 1, rs)
    else Delivered(log, lo, hi - 1, rs) + [Stamp(log, hi - 1)]
  }

  ghost function Pages(rs: seq<Served>): seq<BufferedEvent> {
    if rs == [] then [] else Pages(rs[..|rs| - 1]) + rs[|rs| - 1].reply.events
  }

  /** A single read: a page that starts at its offset or at the oldest retained event, whichever is later. */
  ghost predicate PageOf(v: Served, log: Log) {
    && v.position.offset <= v.total <= |log|
    && v.window >= 1
    && v.position.offset <= v.newOffset <= v.total
    && (v.reply.events != [] ==> v.newOffset == First(v) + |v.reply.events|)
    && (v.reply.events == [] ==> v.newOffset == v.position.offset && v.total <= First(v))
    && forall i | 0 <= i < |v.reply.events| :: First(v) + i < |log| && v.reply.events[i] == Stamp(log, First(v) + i)
  }

  lemma {:induction false} DeliveredSplit(log: Log, lo: nat, mid: nat, hi: nat, rs: seq<Served>)
    requires lo <= mid <= hi <= |log|
    ensures Delivered(log, lo, hi, rs) == Delivered(log, lo, mid, rs) + Delivered(log, mid, hi, rs)
    decreases hi
  {
    if mid < hi {
      DeliveredSplit(log, lo, mid, hi - 1, rs);
    }
  }

  lemma {:induction false} DeliveredFrame(log: Log, lo: nat, hi: nat, rs: seq<Served>, rs': seq<Served>)
    requires lo <= hi <= |log|
    requires forall p: nat | lo <= p < hi :: Missed(rs, p) <==> Missed(rs', p)
    ensures Delivered(log, lo, hi, rs) == Delivered(log, lo, hi, rs')
    decreases hi
  {
    if lo < hi {
      assert Missed(rs, hi - 1) <==> Missed(rs', hi - 1);
      DeliveredFrame(log, lo, hi - 1, rs, rs');
    }
  }

  lemma {:induction false} DeliveredNone(log: Log, lo: nat, hi: nat, rs: seq<Served>)
    requires lo <= hi <= |log|
    requires forall p: nat | lo <= p < hi :: Missed(rs, p)
    ensures Delivered(log, lo, hi, rs) == []
    decreases hi
  {
    if lo < hi {
      assert Missed(rs, hi - 1);
      DeliveredNone(log, lo, hi - 1, rs);
    }
  }

  lemma {:induction false} DeliveredAll(log: Log, lo: nat, hi: nat, rs: seq<Served>, events: seq<BufferedEvent>)
    requires lo <= hi <= |log| && |events| == hi - lo
    requires forall p: nat | lo <= p < hi :: !Missed(rs, p)
    requires forall i | 0 <= i < |events| :: events[i] == Stamp(log, lo + i)
    ensures Delivered(log, lo, hi, rs) == events
    decreases hi
  {
    hide Missed, Stamp;
    if lo < hi {
      var n := |events| - 1;
      DeliveredAll(log, lo, hi - 1, rs, events[..n]);
      assert events[n] == Stamp(log, lo + n);
      assert events == events[..n] + [events[n]];
    }
  }

  /** One page, seen from within a chain whose earlier reads missed nothing at or after its offset. */
  lemma PageDelivers(log: Log, v: Served, rs: seq<Served>)
    requires PageOf(v, log) && v in rs
    requires forall p: nat | v.position.offset <= p :: Missed(rs, p) <==> p < Excess(v.total, v.window)
    ensures Delivered(log, v.position.offset, v.newOffset, rs) == v.reply.events
  {
    var o, n := v.position.offset, v.newOffset;
    if v.reply.events != [] {
      var first := First(v);
      DeliveredSplit(log, o, first, n, rs);
      DeliveredNone(log, o, first, rs);
      DeliveredAll(log, first, n, rs, v.reply.events);
    }
  }

  /** Consecutive pages of one generation are the log from the first offset to the last, minus the evicted ranges. */
  lemma {:induction false} PagesDeliver(log: Log, rs: seq<Served>)
    requires rs != []
    requires forall v <- rs :: PageOf(v, log)
    requires forall i | 0 < i < |rs| :: rs[i].position.offset == rs[i - 1].newOffset
    ensures rs[0].position.offset <= rs[|rs| - 1].newOffset <= |log|
    ensures Pages(rs) == Delivered(log, rs[0].position.offset, rs[|rs| - 1].newOffset, rs)
    ensures forall p: nat | rs[|rs| - 1].newOffset <= p :: !Missed(rs, p)
  {
    var n := |rs| - 1;
    var init, v := rs[..n], rs[n];
    assert rs == init + [v];
    assert PageOf(v, log);
    assert forall p: nat :: Missed(rs, p) <==> Missed(init, p) || v.position.offset <= p < Excess(v.total, v.window);
    if n == 0 {
      assert Pages(init) == [];
      assert forall p: nat :: !Missed(init, p);
      PageDelivers(log, v, rs);
    } else {
      PagesDeliver(log, init);
      var lo, mid := rs[0].position.offset, v.position.offset;
      DeliveredFrame(log, lo, mid, rs, init);
      PageDelivers(log, v, rs);
      DeliveredSplit(log, lo, mid, v.newOffset, rs);
    }
  }

  /**
   Exactly-once paging. Take any run, and any reads it served that are chained by cursor within one
   generation of a group, whatever came between them. Their pages, one after the other, are the
   generation's log from the first offset to the last, in order, each event once and with its rank,
   except the positions evicted before the read that reached them.
   */
  lemma ExactlyOnce(cfg: Config, actions: seq<Action>, rs: seq<Served>, gid: GroupId, generation: nat)
    requires cfg.maxBuffered >= 1
    requires rs != [] && Chained(rs, gid, generation)
    requires forall v <- rs :: v in Run(Start(cfg), actions).pages
    ensures var s := Run(Start(cfg), actions);
            var lo, hi := rs[0].position.offset, rs[|rs| - 1].newOffset;
            && (gid, generation) in s.logs
            && lo <= hi <= |s.logs[(gid, generation)]|
            && Pages(rs) == Delivered(s.logs[(gid, generation)], lo, hi, rs)
  {
    hide Run, Stamp, LogsAgree, RoutingSound, TokensKept, FeedsKept, OpsFit, CursorsBounded, ReadsParked;
    var s := Run(Start(cfg), actions);
    Reachable(cfg, actions);
    assert PageAgrees(rs[0], s.logs, s.issued);
    var log := s.logs[(gid, generation)];
    forall i | 0 <= i < |rs|
      ensures PageOf(rs[i], log) && (0 < i ==> rs[i].position.offset == rs[i - 1].newOffset)
    {
      ChainLink(rs, i, gid, generation, s.logs, s.issued);
    }
    PagesDeliver(log, rs);
  }

  lemma ChainLink(rs: seq<Served>, i: nat, gid: GroupId, generation: nat, logs: Logs, issued: map<CursorId, Cursor>)
    requires Chained(rs, gid, generation) && i < |rs| && (gid, generation) in logs
    requires forall v <- rs :: PageAgrees(v, logs, issued)
    ensures (rs[i].position.cursor.Some? ==> rs[i].position.cursor.value.generation == generation)
    ensures PageOf(rs[i], logs[(gid, generation)])
    ensures 0 < i ==> rs[i].position.offset == rs[i - 1].newOffset
  {
    hide Stamp;
    assert PageAgrees(rs[i], logs, issued);
    if 0 < i {
      assert PageAgrees(rs[i - 1], logs, issued);
      ChainLink(rs, i - 1, gid, generation, logs, issued);
    }
  }

  /** Of a log of `total` events, the one at p is not among the last `window`. */
  predicate FellOut(p: nat, total: nat, window: nat) {
    p < total && total - p > window
  }

  /**
   The gap flag is raised on exactly the reads for which an event at or past their offset had been evicted from the log.
   */
  lemma GapMeansEvicted(cfg: Config, actions: seq<Action>, v: Served)
    requires cfg.maxBuffered >= 1 && v in Run(Start(cfg), actions).pages
    ensures var s := Run(Start(cfg), actions);
            var key := (v.reply.subscription, v.reply.generation);
            && key in s.logs && v.total <= |s.logs[key]|
            && (v.reply.gap <==> exists p: nat :: v.position.offset <= p && FellOut(p, v.total, v.window))
  {
    hide Run, LogsAgree, RoutingSound, TokensKept, FeedsKept, OpsFit, CursorsBounded, ReadsParked;
    Reachable(cfg, actions);
    assert PageAgrees(v, Run(Start(cfg), actions).logs, Run(Start(cfg), actions).issued);
    if v.reply.gap {
      assert FellOut(Excess(v.total, v.window) - 1, v.total, v.window);
    }
  }

  // ---------------------------------------------------------- stale cursors

  /** The only cursors a read accepts are stored, and of the group's current generation. */
  lemma RefusedUnlessCurrent(s: System, request: ReadRequest, rid: ReadId, id: CursorId, now: int)
    requires Inv(s) && request.mode.Changes? && request.cursor == Some(id)
    requires id in s.core.cursors.entries && s.core.cursors.entries[id].subscription in s.core.groups ==>
               var cursor := s.core.cursors.entries[id];
               cursor.generation < s.core.groups[cursor.subscription].generation
    ensures (request.subscription in s.core.groups ==>
               |s.core.groups[request.subscription].buffer| <= s.core.groups[request.subscription].total)
    ensures ReadBegin(s.core, s.cfg, request, rid, now).1 ==
              Refused(if ReadError(s.core, request).Some? then ReadError(s.core, request).value else CURSOR_INVALID)
  {
    hide Inv, AfterResolve, Serve;
    if request.subscription in s.core.groups {
      GroupInv(s, request.subscription);
    }
  }

  /** A cursor of an earlier generation is refused for ever. */
  lemma StaleForEver(s: System, actions: seq<Action>, request: ReadRequest, rid: ReadId, id: CursorId, now: int)
    requires Inv(s) && id in s.issued && s.issued[id].subscription in s.core.groups
    requires s.issued[id].generation < s.core.groups[s.issued[id].subscription].generation
    requires request.mode.Changes? && request.cursor == Some(id)
    ensures var s' := Run(s, actions);
            && (request.subscription in s'.core.groups ==>
                  |s'.core.groups[request.subscription].buffer| <= s'.core.groups[request.subscription].total)
            && ReadBegin(s'.core, s'.cfg, request, rid, now).1 ==
                 Refused(if ReadError(s'.core, request).Some? then ReadError(s'.core, request).value
                         else CURSOR_INVALID)
  {
    hide Inv, Run, ReadBegin;
    var s' := Run(s, actions);
    RunKeeps(s, actions);
    RunOnward(s, actions);
    StoredAsIssued(s', id);
    RefusedUnlessCurrent(s', request, rid, id, now);
  }

  /** A handle that was consumed, invalidated, expired or evicted never reads again. */
  lemma GoneForEver(s: System, actions: seq<Action>, request: ReadRequest, rid: ReadId, id: CursorId, now: int)
    requires Inv(s) && id in s.issued && id !in s.core.cursors.entries
    requires request.mode.Changes? && request.cursor == Some(id)
    ensures var s' := Run(s, actions);
            && (request.subscription in s'.core.groups ==>
                  |s'.core.groups[request.subscription].buffer| <= s'.core.groups[request.subscription].total)
            && ReadBegin(s'.core, s'.cfg, request, rid, now).1 ==
                 Refused(if ReadError(s'.core, request).Some? then ReadError(s'.core, request).value
                         else CURSOR_INVALID)
  {
    hide Inv, Run, ReadBegin;
    var s' := Run(s, actions);
    RunKeeps(s, actions);
    RunOnward(s, actions);
    StoredAsIssued(s, id);
    RefusedUnlessCurrent(s', request, rid, id, now);
  }

  /** Serving a page consumes the cursor that was presented, and draws its successor. */
  lemma ServingConsumes(s: System, rid: ReadId, now: int)
    requires Inv(s) && rid in s.parked && s.core.longPolls > 0 && s.parked[rid].gid in s.core.groups
    requires |s.core.groups[s.parked[rid].gid].buffer| <= s.core.groups[s.parked[rid].gid].total
    requires s.parked[rid].position.cursor.Some?
    ensures var s' := Next(s, ReadDone(rid, now));
            var used := s.parked[rid].position.cursor.value;
            used.id !in s'.core.cursors.entries
            && s'.pages != [] && s'.pages[|s'.pages| - 1].reply.cursor != used.id
  {
    hide Inv, Successor, NextOffset, PageFrom;
    var r := s.parked[rid];
    ParkedLocated(s, rid);
    StoredAsIssued(s, r.position.cursor.value.id);
    var g := s.core.groups[r.gid];
    var g' := g.(waiters := g.waiters - {rid});
    var c := s.core.(longPolls := s.core.longPolls - 1, groups := s.core.groups[r.gid := g']);
    SuccessorConsumes(c, s.cfg, r.gid, r.position, NextOffset(g', r.position.offset, r.limit), r.principal, now);
  }

  lemma SuccessorConsumes(c: Core, cfg: Config, gid: GroupId, position: Position, next: nat, principal: string,
                          now: int)
    requires gid in c.groups && position.cursor.Some? && position.cursor.value.id < c.cursors.next
    ensures var (cursor, store) := Successor(c, cfg, gid, position, next, principal, now);
            position.cursor.value.id !in store.entries && cursor.id != position.cursor.value.id
  {
    hide Evict;
    var used := position.cursor.value;
    var before := Forget(c.cursors, used.id);
    var cursor := Draw(before, used.subscription, used.generation, next, used.principal, cfg.cursorTtl, now);
    EvictionKeepsTheYoungest(before.entries[cursor.id := cursor], now);
  }

  // ------------------------------------------------- reads that span a replacement

  lemma StaysParkedStep(s: System, a: Action, rid: ReadId)
    requires rid in s.parked && (a.ReadDone? ==> a.rid != rid)
    ensures rid in Next(s, a).parked && Next(s, a).parked[rid] == s.parked[rid]
  {
    hide OnCreate, OnCreateDone, OnNative, OnResubscribe, OnResubscribeDone, OnCancel, OnCancelDone, OnExpireDone,
         OnRestore, OnRestoreDone, OnRead, OnReadDone, Tokens, RetryFinish, Fits, Due;
    if Enabled(s, a) {
      match a
      case Read(request, other, now) => ReadParksItself(s, request, other, now);
      case ReadDone(other, now) => ReadDoneUnparksItself(s, other, now);
      case _ => OthersParkNobody(s, a);
    }
  }

  lemma ReadParksItself(s: System, request: ReadRequest, rid: ReadId, now: int)
    requires request.subscription in s.core.groups ==>
               |s.core.groups[request.subscription].buffer| <= s.core.groups[request.subscription].total
    ensures forall r | r in s.parked && r != rid ::
              r in OnRead(s, request, rid, now).parked && OnRead(s, request, rid, now).parked[r] == s.parked[r]
  {
    hide ReadBegin, Successor, NextOffset;
    PageIsOfGroup(s.core, s.cfg, request, rid, now);
  }

  lemma ReadDoneUnparksItself(s: System, rid: ReadId, now: int)
    requires rid in s.parked && s.core.longPolls > 0 && s.parked[rid].gid in s.core.groups
    requires |s.core.groups[s.parked[rid].gid].buffer| <= s.core.groups[s.parked[rid].gid].total
    ensures OnReadDone(s, rid, now).parked == s.parked - {rid}
  {
    hide ReadFinish, Successor, NextOffset;
  }

  lemma OthersParkNobody(s: System, a: Action)
    requires Enabled(s, a) && !a.Read? && !a.ReadDone?
    ensures Next(s, a).parked == s.parked
  {
    hide CreateBegin, HandleEvent, Target, ResubscribeBegin, Tokens, CancelBegin, RestoreBegin, Fits, Due;
    if a.Restore? {
      RestoredThere(s.core, a.gid);
    }
  }

  lemma RestoredThere(c: Core, gid: GroupId)
    requires gid in c.groups
    ensures gid in RestoreBegin(c, gid).groups
  {
  }

  lemma {:induction false} StaysParked(s: System, actions: seq<Action>, rid: ReadId)
    requires rid in s.parked && forall a <- actions :: a.ReadDone? ==> a.rid != rid
    ensures rid in Run(s, actions).parked && Run(s, actions).parked[rid] == s.parked[rid]
  {
    hide Next;
    if actions != [] {
      var init, last := actions[..|actions| - 1], actions[|actions| - 1];
      assert actions == init + [last];
      StaysParked(s, init, rid);
      StaysParkedStep(Run(s, init), last, rid);
    }
  }

  /** A parked read can always be resumed, and its page is recorded as that of its group and position. */
  lemma ResumedPage(s: System, rid: ReadId, now: int)
    requires Inv(s) && rid in s.parked
    ensures Enabled(s, ReadDone(rid, now))
    ensures var pages := Next(s, ReadDone(rid, now)).pages;
            && pages != []
            && var v := pages[|pages| - 1];
               v.position == s.parked[rid].position && v.reply.subscription == s.parked[rid].gid
  {
    hide LogsAgree, RoutingSound, TokensKept, FeedsKept, OpsFit, CursorsBounded, PagesAgree, PageFrom, NextOffset,
         Successor;
    var r := s.parked[rid];
    assert ParkedFits(r, s.core.groups, s.ops, s.issued);
    SomebodyParked(s.parked, rid);
    GroupInv(s, r.gid);
  }

  lemma SomebodyParked(parked: map<ReadId, Parked>, rid: ReadId)
    requires rid in parked
    ensures |parked| > 0
  {
    assert rid in parked.Keys;
  }

  /** The page a resumed read was served, and the cursor it was handed. */
  ghost function Resumed(s: System, rid: ReadId, now: int): Served
    requires Inv(s) && rid in s.parked
  {
    ResumedPage(s, rid, now);
    var pages := Next(s, ReadDone(rid, now)).pages;
    pages[|pages| - 1]
  }

  /**
   A read that presents a cursor of the current generation parks, and is resumed after any run of steps. The cursor it
   is handed is accepted, as far as it is stored, unexpired and presented by its principal, exactly if none of these
   steps replaced or restored the group.
   */
  lemma SpanningReadIsDetached(s: System, rid: ReadId, between: seq<Action>, now: int, request: ReadRequest, later: int)
    requires Inv(s) && rid in s.parked && s.parked[rid].gid in s.core.groups
    requires s.parked[rid].position.cursor.Some?
    requires s.parked[rid].position.cursor.value.generation == s.core.groups[s.parked[rid].gid].generation
    requires forall a <- between :: a.ReadDone? ==> a.rid != rid
    requires request.subscription == s.parked[rid].gid
    ensures var t := Run(s, between);
            && Inv(t) && rid in t.parked && t.parked[rid] == s.parked[rid]
            && var c := Next(t, ReadDone(rid, now)).core;
               && request.subscription in c.groups
               && (CursorAccepted(c, request, Resumed(t, rid, now).reply.cursor, later) <==>
                     && Presentable(c.cursors, Resumed(t, rid, now).reply.cursor, request.principal, later)
                     && Replacements(s, between, s.parked[rid].gid) == 0)
  {
    hide Inv, Run, Next, Replacements, Presentable, Resumed;
    var t := Run(s, between);
    var gid := s.parked[rid].gid;
    RunKeeps(s, between);
    StaysParked(s, between, rid);
    ParkedHasGroup(t, rid);
    GenerationsCount(s, between, gid);
    ResumedCursor(t, rid, now);
    PresentedIsStored(Next(t, ReadDone(rid, now)), Resumed(t, rid, now).reply.cursor, request.principal, later);
  }

  lemma ParkedHasGroup(s: System, rid: ReadId)
    requires Inv(s) && rid in s.parked
    ensures s.parked[rid].gid in s.core.groups
  {
    hide LogsAgree, RoutingSound, TokensKept, FeedsKept, OpsFit, CursorsBounded, PagesAgree;
    assert ParkedFits(s.parked[rid], s.core.groups, s.ops, s.issued);
  }

  /** The successor of a cursor keeps its group and its generation; resuming replaces nothing. */
  lemma ResumedCursor(s: System, rid: ReadId, now: int)
    requires Inv(s) && rid in s.parked && s.parked[rid].gid in s.core.groups && s.parked[rid].position.cursor.Some?
    ensures var s', gid := Next(s, ReadDone(rid, now)), s.parked[rid].gid;
            var id := Resumed(s, rid, now).reply.cursor;
            && Inv(s') && gid in s'.core.groups && s'.core.groups[gid].generation == s.core.groups[gid].generation
            && id in s'.issued && s'.issued[id].subscription == gid
            && s'.issued[id].generation == s.parked[rid].position.cursor.value.generation
  {
    hide LogsAgree, RoutingSound, TokensKept, FeedsKept, OpsFit, CursorsBounded, ReadsParked, Next, Enabled;
    var s' := Next(s, ReadDone(rid, now));
    NextKeeps(s, ReadDone(rid, now));
    NextSteps(s, ReadDone(rid, now));
    ResumedPage(s, rid, now);
    assert Resumed(s, rid, now) in s'.pages;
    assert PageAgrees(Resumed(s, rid, now), s'.logs, s'.issued);
  }

  lemma PresentedIsStored(s: System, id: CursorId, principal: string, now: int)
    requires Inv(s)
    ensures Presentable(s.core.cursors, id, principal, now) ==>
              id in s.core.cursors.entries && id in s.issued && s.issued[id] == s.core.cursors.entries[id]
  {
    hide Inv;
    StoredAsIssued(s, id);
  }
}
