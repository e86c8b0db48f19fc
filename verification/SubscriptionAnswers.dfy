/** What callers of the registry are answered, said of the run: who created the group, its log, its cursors. */
module SubscriptionAnswers {
  import opened Wrappers
  import opened Cursors
  import opened SubscriptionModel
  import opened SubscriptionLog
  import opened SubscriptionSystem
  import opened SubscriptionFrames
  import opened SubscriptionSafety
  import opened SubscriptionReads
  import opened SubscriptionRuns
  import opened SubscriptionSteps
  import opened SubscriptionOrigins

  // -------------------------------------------------------------------- ownership

  /** The group is there, and the caller is an administrator or the principal that created it in this run. */
  ghost predicate MayUse(cfg: Config, actions: seq<Action>, gid: GroupId, who: string, admin: bool) {
    gid in Run(Start(cfg), actions).core.groups && (admin || CreatedBy(Start(cfg), actions, gid, who))
  }

  lemma OwnedExactly(cfg: Config, actions: seq<Action>, gid: GroupId, who: string, admin: bool)
    requires cfg.maxBuffered >= 1
    ensures Owned(Run(Start(cfg), actions).core, who, gid, admin) <==> MayUse(cfg, actions, gid, who, admin)
  {
    hide Run, CreatedBy;
    if gid in Run(Start(cfg), actions).core.groups {
      OwnerIsCreator(cfg, actions, gid, who);
    }
  }

  /**
   A stranger is told that there is no such subscription, whatever is asked, and changes nothing by asking. Nobody else
   is told so.
   */
  lemma StrangersAreTurnedAway(cfg: Config, actions: seq<Action>, request: ReadRequest, rid: ReadId, now: int,
                               who: string, gid: GroupId, specs: seq<Spec>, admin: bool)
    requires cfg.maxBuffered >= 1
    ensures var s := Run(Start(cfg), actions);
            && (request.subscription in s.core.groups ==>
                  |s.core.groups[request.subscription].buffer| <= s.core.groups[request.subscription].total)
            && (ReadBegin(s.core, s.cfg, request, rid, now).1 == Refused(SUBSCRIPTION_NOT_FOUND) <==>
                  !MayUse(cfg, actions, request.subscription, request.principal, request.admin))
            && (ResubscribeBegin(s.core, s.cfg, who, gid, specs, admin).1 == Err(SUBSCRIPTION_NOT_FOUND) <==>
                  !MayUse(cfg, actions, gid, who, admin))
            && (CancelBegin(s.core, who, gid, admin) == Err(SUBSCRIPTION_NOT_FOUND) <==>
                  !MayUse(cfg, actions, gid, who, admin))
            && (!MayUse(cfg, actions, request.subscription, request.principal, request.admin) ==>
                  Next(s, Read(request, rid, now)) == s)
            && (!MayUse(cfg, actions, gid, who, admin) ==>
                  Next(s, Resubscribe(who, gid, specs, admin)) == s && Next(s, Cancel(who, gid, admin)) == s)
  {
    hide Run, MayUse;
    var s := Run(Start(cfg), actions);
    Reachable(cfg, actions);
    OwnedExactly(cfg, actions, request.subscription, request.principal, request.admin);
    OwnedExactly(cfg, actions, gid, who, admin);
    if request.subscription in s.core.groups {
      GroupInv(s, request.subscription);
    }
    ReadNotFound(s, request, rid, now);
    ResubscribeNotFound(s, who, gid, specs, admin);
    CancelNotFound(s, who, gid, admin);
  }

  lemma ReadNotFound(s: System, request: ReadRequest, rid: ReadId, now: int)
    requires request.subscription in s.core.groups ==>
               |s.core.groups[request.subscription].buffer| <= s.core.groups[request.subscription].total
    ensures ReadBegin(s.core, s.cfg, request, rid, now).1 == Refused(SUBSCRIPTION_NOT_FOUND) <==>
              !Owned(s.core, request.principal, request.subscription, request.admin)
    ensures !Owned(s.core, request.principal, request.subscription, request.admin) ==>
              Next(s, Read(request, rid, now)) == s
  {
    hide Successor, PageFrom, NextOffset, AfterResolve, Presentable;
  }

  lemma ResubscribeNotFound(s: System, who: string, gid: GroupId, specs: seq<Spec>, admin: bool)
    ensures ResubscribeBegin(s.core, s.cfg, who, gid, specs, admin).1 == Err(SUBSCRIPTION_NOT_FOUND) <==>
              !Owned(s.core, who, gid, admin)
    ensures !Owned(s.core, who, gid, admin) ==> Next(s, Resubscribe(who, gid, specs, admin)) == s
  {
    hide NewItems, Accepted;
  }

  lemma CancelNotFound(s: System, who: string, gid: GroupId, admin: bool)
    ensures CancelBegin(s.core, who, gid, admin) == Err(SUBSCRIPTION_NOT_FOUND) <==> !Owned(s.core, who, gid, admin)
    ensures !Owned(s.core, who, gid, admin) ==> Next(s, Cancel(who, gid, admin)) == s
  {
    hide Tokens;
  }

  // ------------------------------------------------------------------------ reads

  /** The latest view, as the log has it: the items that got an event, each with its payloads merged in order. */
  ghost predicate ViewOfLog(latest: map<ItemId, Payload>, log: Log) {
    forall id: ItemId ::
      (id in latest <==> exists k :: 0 <= k < |log| && log[k].item == id)
        && (id in latest ==> latest[id] == Merge(log, id))
  }

  lemma {:induction false} CountMeans(log: Log, id: ItemId)
    ensures Count(log, id) > 0 <==> exists k :: 0 <= k < |log| && log[k].item == id
  {
    if log != [] {
      var n := |log| - 1;
      CountMeans(log[..n], id);
      if log[n].item != id {
        if k :| 0 <= k < |log| && log[k].item == id {
          assert log[..n][k].item == id;
        }
        if k :| 0 <= k < n && log[..n][k].item == id {
          assert log[k].item == id;
        }
      }
    }
  }

  /** A cursor this reader may present now: stored, unexpired, its own, and of this group and generation. */
  ghost predicate Usable(s: System, id: CursorId, gid: GroupId, generation: nat, who: string, now: int) {
    && id in s.core.cursors.entries && id in s.issued
    && var cursor := s.issued[id];
       && (cursor.expiresAt.Some? ==> now < cursor.expiresAt.value)
       && (cursor.principal.Some? ==> cursor.principal.value == who)
       && cursor.subscription == gid && cursor.generation == generation
  }

  lemma UsableExactly(s: System, request: ReadRequest, id: CursorId, now: int)
    requires Inv(s) && request.subscription in s.core.groups
    ensures var g := s.core.groups[request.subscription];
            CursorAccepted(s.core, request, id, now) <==>
              Usable(s, id, request.subscription, g.generation, request.principal, now)
    ensures id in s.core.cursors.entries ==> id in s.issued && s.issued[id] == s.core.cursors.entries[id]
  {
    hide Inv;
    StoredAsIssued(s, id);
  }

  /** The answer to a read, in the order of the checks. */
  ghost predicate ReadAnswered(s: System, request: ReadRequest, now: int, owner: bool, asked: Option<RetentionRequest>,
                               outcome: ReadOutcome)
    requires request.subscription in s.core.groups
  {
    var gid, g := request.subscription, s.core.groups[request.subscription];
    var log := if (gid, g.generation) in s.logs then s.logs[(gid, g.generation)] else [];
    if !owner then outcome == Refused(SUBSCRIPTION_NOT_FOUND)
    else if g.status.Cancelled? || g.status.Expired? then outcome == Refused(SUBSCRIPTION_EXPIRED)
    else if request.generation.Some? && request.generation.value != g.generation then outcome == Refused(CURSOR_INVALID)
    else if request.mode.OtherMode? || (request.mode.Latest? && RetainsAs(asked, ChangesOnly))
            || (request.mode.Changes? && RetainsAs(asked, LatestOnly)) then
      outcome == Refused(INVALID_ARGUMENT)
    else if request.mode.Latest? then
      && outcome.LatestView? && outcome.generation == g.generation && ViewOfLog(outcome.latest, log)
      && outcome.dropped == Evicted(s.logs, gid, g.generation, g.maxEvents)
    else if request.cursor.Some? && !Usable(s, request.cursor.value, gid, g.generation, request.principal, now) then
      outcome == Refused(CURSOR_INVALID)
    else
      var from := if request.cursor.Some? then s.issued[request.cursor.value].offset else 0;
      if request.wait && |s.parked| >= s.cfg.maxLongPolls then outcome == Refused(RATE_LIMITED)
      else if request.wait && |log| <= from then outcome.MustWait? && outcome.position.offset == from
      else outcome.Page? && outcome.position.offset == from
  }

  lemma ReadByChecks(s: System, request: ReadRequest, rid: ReadId, now: int, m: Memory)
    requires Inv(s) && request.subscription in s.core.groups
    requires Owes(s.cfg, s.core.groups[request.subscription], m)
    ensures var g := s.core.groups[request.subscription];
            && |g.buffer| <= g.total
            && ReadAnswered(s, request, now, g.principal == request.principal || request.admin, m.request,
                            ReadBegin(s.core, s.cfg, request, rid, now).1)
  {
    hide Inv, Successor, PageFrom, NextOffset, Usable, ViewOfLog, AfterResolve, CursorAccepted, GroupAgrees;
    var gid := request.subscription;
    GroupInv(s, gid);
    LogOf(s, gid);
    RetentionIs(s.cfg, s.core.groups[gid], m);
    SlotsAreParked(s);
    if request.cursor.Some? {
      UsableExactly(s, request, request.cursor.value, now);
      UsableIsStored(s, request.cursor.value, gid, s.core.groups[gid].generation, request.principal, now);
    }
  }

  lemma LogOf(s: System, gid: GroupId)
    requires Inv(s) && gid in s.core.groups
    ensures var g := s.core.groups[gid];
            && (gid, g.generation) in s.logs && g.total == |s.logs[(gid, g.generation)]|
            && ViewOfLog(g.latest, s.logs[(gid, g.generation)])
            && g.dropped == Evicted(s.logs, gid, g.generation, g.maxEvents)
  {
    hide Inv, Window, Merge, Count;
    GroupInv(s, gid);
    var g := s.core.groups[gid];
    var log := s.logs[(gid, g.generation)];
    forall id: ItemId
      ensures (id in g.latest <==> exists k :: 0 <= k < |log| && log[k].item == id) &&
              (id in g.latest ==> g.latest[id] == Merge(log, id)) {
      CountMeans(log, id);
    }
  }

  lemma RetentionIs(cfg: Config, g: Group, m: Memory)
    requires Owes(cfg, g, m)
    ensures forall retention :: RetainsAs(m.request, retention) <==> g.retention == retention
  {
  }

  lemma SlotsAreParked(s: System)
    requires Inv(s)
    ensures s.core.longPolls == |s.parked|
  {
    hide LogsAgree, RoutingSound, TokensKept, FeedsKept, OpsFit, CursorsBounded, ReadsParked, PagesAgree;
  }

  lemma UsableIsStored(s: System, id: CursorId, gid: GroupId, generation: nat, who: string, now: int)
    ensures Usable(s, id, gid, generation, who, now) ==> id in s.core.cursors.entries && id in s.issued
  {
  }

  /** Every read of a group, in every reachable state, is answered as its history says. */
  lemma ReadsAreAnswered(cfg: Config, actions: seq<Action>, request: ReadRequest, rid: ReadId, now: int)
    requires cfg.maxBuffered >= 1 && request.subscription in Run(Start(cfg), actions).core.groups
    ensures var s, gid := Run(Start(cfg), actions), request.subscription;
            && gid in Remembered(Start(cfg), actions)
            && |s.core.groups[gid].buffer| <= s.core.groups[gid].total
            && ReadAnswered(s, request, now, MayUse(cfg, actions, gid, request.principal, request.admin),
                            Remembered(Start(cfg), actions)[gid].request, ReadBegin(s.core, s.cfg, request, rid, now).1)
  {
    hide Run, Remembered, AllOwe, ReadAnswered, MayUse, Owes;
    var s, gid := Run(Start(cfg), actions), request.subscription;
    Reachable(cfg, actions);
    GroupsOweTheirOrigin(cfg, actions);
    OweAt(s, Remembered(Start(cfg), actions), gid);
    OwnedExactly(cfg, actions, gid, request.principal, request.admin);
    ReadByChecks(s, request, rid, now, Remembered(Start(cfg), actions)[gid]);
  }

  // ------------------------------------------------------------------------ pages

  /** The number of events a read may ask for: at least one, at most a thousand. */
  ghost predicate SizeIs(limit: int, size: nat) {
    size == if limit <= 1 then 1 else if limit <= 1000 then limit else 1000
  }

  /** The read that a step serves a page to: its group, its limit, its principal and the time. */
  datatype Reading = Reading(gid: GroupId, position: Position, limit: int, who: string, now: int)

  /** The page of a read, beside its events: as many as are retained and asked for, the drops, and the new cursor. */
  ghost predicate PageTells(s: System, s': System, r: Reading) {
    && r.gid in s.core.groups && |s'.pages| == |s.pages| + 1
    && var v, g := s'.pages[|s.pages|], s.core.groups[r.gid];
       && v.reply.subscription == r.gid && v.reply.generation == g.generation
       && v.total == g.total && v.window == g.maxEvents && v.position == r.position
       && v.reply.dropped == Evicted(s.logs, r.gid, g.generation, g.maxEvents)
       && (exists size :: SizeIs(r.limit, size) &&
             |v.reply.events| == if First(v) >= v.total then 0
                                 else if v.total - First(v) <= size then v.total - First(v) else size)
       && v.reply.cursor in s'.issued
       && var cursor := s'.issued[v.reply.cursor];
          && cursor.expiresAt == (if s.cfg.cursorTtl == 0 then None else Some(r.now + s.cfg.cursorTtl))
          && cursor.principal == if r.position.cursor.Some? then r.position.cursor.value.principal else Some(r.who)
  }

  lemma PageIsFull(g: Group, log: Log, offset: nat, limit: int)
    requires Agrees(g, log)
    ensures |g.buffer| <= g.total
    ensures var page, first := PageFrom(g, offset, limit), Max(offset, Excess(g.total, g.maxEvents));
            exists size :: SizeIs(limit, size) &&
              |page| == if first >= g.total then 0 else if g.total - first <= size then g.total - first else size
  {
    hide Views, Stamp;
    assert SizeIs(limit, PageSize(limit));
  }

  lemma ServingTells(s: System, r: Reading)
    requires Inv(s) && r.gid in s.core.groups && |s.core.groups[r.gid].buffer| <= s.core.groups[r.gid].total
    ensures PageTells(s, Serving(s, r.gid, r.position, r.limit, r.who, r.now), r)
  {
    hide Inv, PageFrom, NextOffset, Insert, SizeIs;
    var g := s.core.groups[r.gid];
    GroupInv(s, r.gid);
    PageIsFull(g, s.logs[(r.gid, g.generation)], r.position.offset, r.limit);
  }

  /** A page of the same group when only waiters, slots or cursors have changed. */
  lemma TellsAlike(s: System, t: System, s': System, r: Reading)
    requires PageTells(t, s', r) && t.pages == s.pages && t.logs == s.logs && t.cfg == s.cfg
    requires r.gid in s.core.groups && t.core.groups[r.gid] ==
             s.core.groups[r.gid].(waiters := t.core.groups[r.gid].waiters)
    ensures PageTells(s, s', r)
  {
    hide SizeIs, First;
  }

  lemma ReadTells(s: System, request: ReadRequest, rid: ReadId, now: int)
    requires Inv(s) && Enabled(s, Read(request, rid, now))
    ensures var s' := Next(s, Read(request, rid, now));
            var outcome := ReadBegin(s.core, s.cfg, request, rid, now).1;
            if !outcome.Page? then s'.pages == s.pages
            else PageTells(s, s', Reading(request.subscription, outcome.position, request.limit, request.principal,
                                          now))
  {
    hide Inv, ReadBegin, PageTells, Serving, Successor, NextOffset;
    var (core, outcome) := ReadBegin(s.core, s.cfg, request, rid, now);
    if outcome.Page? {
      PageIsOfGroup(s.core, s.cfg, request, rid, now);
      var r := Reading(request.subscription, outcome.position, request.limit, request.principal, now);
      GroupInv(s, r.gid);
      ServedAtOnce(s, request, rid, now);
      ServingTells(s, r);
    }
  }

  /** A page that is served at once is served on the state as it is. */
  lemma ServedAtOnce(s: System, request: ReadRequest, rid: ReadId, now: int)
    requires request.subscription in s.core.groups
    requires |s.core.groups[request.subscription].buffer| <= s.core.groups[request.subscription].total
    requires ReadBegin(s.core, s.cfg, request, rid, now).1.Page?
    ensures OnRead(s, request, rid, now) ==
              Serving(s, request.subscription, ReadBegin(s.core, s.cfg, request, rid, now).1.position, request.limit,
                      request.principal, now)
  {
    hide Successor, PageFrom, NextOffset;
    if request.cursor.Some? && CursorAccepted(s.core, request, request.cursor.value, now) {
      assert AfterResolve(s.core.cursors, request.cursor.value, request.principal, now) == s.core.cursors;
      assert s.core.(cursors := s.core.cursors) == s.core;
    }
  }

  lemma ReadDoneTells(s: System, rid: ReadId, now: int)
    requires Inv(s) && Enabled(s, ReadDone(rid, now))
    ensures var p := s.parked[rid];
            PageTells(s, Next(s, ReadDone(rid, now)), Reading(p.gid, p.position, p.limit, p.principal, now))
  {
    hide Inv, PageTells, Successor, NextOffset, PageFrom;
    var p := s.parked[rid];
    UnparkKeeps(s, rid);
    var t := Unparked(s, rid);
    var r := Reading(p.gid, p.position, p.limit, p.principal, now);
    ServingTells(t, r);
    ResumedServing(s, rid, now);
    var s' := OnReadDone(s, rid, now);
    TellsParked(t, Serving(t, p.gid, p.position, p.limit, p.principal, now), s', r);
    TellsAlike(s, t, s', r);
  }

  lemma TellsParked(t: System, one: System, other: System, r: Reading)
    requires PageTells(t, one, r) && other.pages == one.pages && other.issued == one.issued
    ensures PageTells(t, other, r)
  {
    hide SizeIs, First;
  }

  lemma ResumedServing(s: System, rid: ReadId, now: int)
    requires rid in s.parked && s.core.longPolls > 0 && s.parked[rid].gid in s.core.groups
    requires |s.core.groups[s.parked[rid].gid].buffer| <= s.core.groups[s.parked[rid].gid].total
    ensures var p, t := s.parked[rid], Unparked(s, rid);
            && p.gid in t.core.groups && |t.core.groups[p.gid].buffer| <= t.core.groups[p.gid].total
            && var served := Serving(t, p.gid, p.position, p.limit, p.principal, now);
               OnReadDone(s, rid, now).pages == served.pages && OnReadDone(s, rid, now).issued == served.issued
  {
    var p := s.parked[rid];
    var g := s.core.groups[p.gid];
    SamePage(g, g.(waiters := g.waiters - {rid}), p.position.offset, p.limit);
    hide PageFrom, NextOffset, Insert;
  }

  /**
   In any run a read that is served at once, and every parked one that resumes, gets a page that tells the generation,
     the
   drops and the cursor and is as full as it may be. No other step serves one.
   */
  lemma PagesTell(cfg: Config, actions: seq<Action>, a: Action)
    requires cfg.maxBuffered >= 1
    ensures var s := Run(Start(cfg), actions);
            var s' := Next(s, a);
            && (a.ReadDone? && Enabled(s, a) ==>
                  a.rid in s.parked && var p := s.parked[a.rid];
                  PageTells(s, s', Reading(p.gid, p.position, p.limit, p.principal, a.now)))
            && (a.Read? && Enabled(s, a) ==>
                  var outcome := ReadBegin(s.core, s.cfg, a.request, a.rid, a.now).1;
                  if !outcome.Page? then s'.pages == s.pages
                  else PageTells(s, s', Reading(a.request.subscription, outcome.position, a.request.limit,
                                                a.request.principal, a.now)))
            && (!(Enabled(s, a) && (a.Read? || a.ReadDone?)) ==> s'.pages == s.pages)
  {
    hide Run, Inv, Next, PageTells, ReadBegin;
    var s := Run(Start(cfg), actions);
    Reachable(cfg, actions);
    if a.Read? && Enabled(s, a) {
      ReadTells(s, a.request, a.rid, a.now);
    } else if a.ReadDone? && Enabled(s, a) {
      ParkedThere(s, a);
      ReadDoneTells(s, a.rid, a.now);
    } else {
      NoPage(s, a);
    }
  }

  lemma ParkedThere(s: System, a: Action)
    requires a.ReadDone? && Enabled(s, a)
    ensures a.rid in s.parked
  {
  }

  lemma NoPage(s: System, a: Action)
    requires !(Enabled(s, a) && (a.Read? || a.ReadDone?))
    ensures Next(s, a).pages == s.pages
  {
    hide Enabled, CreateBegin, CreateAbort, HandleEvent, Target, ResubscribeBegin, ResubscribeCommit, ResubscribeAbort,
         CancelBegin, CancelFinish, ExpireFinish, RestoreBegin, RestoreAbort, RetryFinish, Tokens, OpTokens, NewItems;
  }

  /** A cursor that was handed out is good, as long as it is stored, to its principal and until it expires. */
  lemma CursorLives(s: System, later: seq<Action>, id: CursorId, who: string, now: int)
    requires Inv(s) && id in s.issued
    ensures var t := Run(s, later);
            Presentable(t.core.cursors, id, who, now) <==>
              && id in t.core.cursors.entries
              && (s.issued[id].expiresAt.Some? ==> now < s.issued[id].expiresAt.value)
              && (s.issued[id].principal.Some? ==> s.issued[id].principal.value == who)
  {
    hide Inv, Run;
    RunKeeps(s, later);
    RunOnward(s, later);
    StoredAsIssued(Run(s, later), id);
  }

  /** Presented too late or by another, it is destroyed. */
  lemma MisusedCursorIsDestroyed(s: System, request: ReadRequest, rid: ReadId, now: int, id: CursorId)
    requires Inv(s) && Enabled(s, Read(request, rid, now)) && request.cursor == Some(id) && request.mode.Changes?
    requires ReadError(s.core, request).None? && id in s.core.cursors.entries && id in s.issued
    requires (s.issued[id].expiresAt.Some? && now >= s.issued[id].expiresAt.value)
             || (s.issued[id].principal.Some? && s.issued[id].principal.value != request.principal)
    ensures var s' := Next(s, Read(request, rid, now)); id !in s'.core.cursors.entries
  {
    hide Inv, ReadAt;
    StoredAsIssued(s, id);
  }

  // -------------------------------------------------- create, replace, cancel, expire

  ghost predicate Counted(status: GroupStatus) {
    !status.Cancelling? && !status.Cancelled? && !status.Failed? && !status.Expired?
  }

  /** The groups of a principal that count against its limit. */
  ghost function CountedGroups(cfg: Config, actions: seq<Action>, who: string): set<GroupId> {
    var s := Run(Start(cfg), actions);
    set gid <- s.core.groups | CreatedBy(Start(cfg), actions, gid, who) && Counted(s.core.groups[gid].status)
  }

  /** A spec with no topic, or with too many fields. */
  ghost predicate SpecRefused(cfg: Config, spec: Spec, error: ErrorCode) {
    || (spec.topic == "" && error == INVALID_ARGUMENT)
    || (spec.topic != "" && |spec.fields| > cfg.maxFields && error == SUBSCRIPTION_LIMIT_EXCEEDED)
  }

  ghost predicate SpecFine(cfg: Config, spec: Spec) {
    spec.topic != "" && |spec.fields| <= cfg.maxFields
  }

  /** The first bad spec decides; with none the answer is a new thing. */
  ghost predicate SpecsAnswered<T>(cfg: Config, specs: seq<Spec>, answer: Result<T>) {
    if forall spec <- specs :: SpecFine(cfg, spec) then answer.Ok?
    else exists i :: 0 <= i < |specs| && (forall j | 0 <= j < i :: SpecFine(cfg, specs[j]))
                     && answer.Err? && SpecRefused(cfg, specs[i], answer.error)
  }

  lemma AcceptedMeans(cfg: Config, specs: seq<Spec>)
    ensures Accepted(specs, cfg) == |specs| <==> forall spec <- specs :: SpecFine(cfg, spec)
    ensures var n := Accepted(specs, cfg);
            n < |specs| ==>
              (forall j | 0 <= j < n :: SpecFine(cfg, specs[j])) && SpecRefused(cfg, specs[n], Refusal(specs[n]))
  {
    var n := Accepted(specs, cfg);
    if n < |specs| {
      assert specs[n] in specs && !SpecFine(cfg, specs[n]);
    } else {
      forall spec <- specs ensures SpecFine(cfg, spec) {
        var i :| 0 <= i < |specs| && specs[i] == spec;
        assert Acceptable(specs[i], cfg);
      }
    }
  }

  ghost predicate CreateAnswered(cfg: Config, counted: nat, specs: seq<Spec>, request: Option<RetentionRequest>,
                                 answer: Result<GroupId>)
  {
    if counted >= cfg.maxPerPrincipal then answer == Err(SUBSCRIPTION_LIMIT_EXCEEDED)
    else if specs == [] then answer == Err(INVALID_ARGUMENT)
    else if |specs| > cfg.maxTopics then answer == Err(SUBSCRIPTION_LIMIT_EXCEEDED)
    else if request.Some? && request.value.mode == Some(None) then answer == Err(INVALID_ARGUMENT)
    else SpecsAnswered(cfg, specs, answer)
  }

  lemma CreatesAreAnswered(cfg: Config, actions: seq<Action>, who: string, specs: seq<Spec>,
                           request: Option<RetentionRequest>, now: int)
    requires cfg.maxBuffered >= 1
    ensures var s := Run(Start(cfg), actions);
            var answer := CreateBegin(s.core, s.cfg, who, specs, request, now).1;
            && CreateAnswered(s.cfg, |CountedGroups(cfg, actions, who)|, specs, request, answer)
            && (answer.Ok? ==> answer.value !in s.core.groups)
  {
    hide Run, CreatedBy, Inv, Accepted, SpecsAnswered;
    var s := Run(Start(cfg), actions);
    Reachable(cfg, actions);
    NextIdUnused(s);
    forall gid <- s.core.groups
      ensures CreatedBy(Start(cfg), actions, gid, who) <==> s.core.groups[gid].principal == who {
      OwnerIsCreator(cfg, actions, gid, who);
    }
    assert CountedGroups(cfg, actions, who) == RunningGroups(s.core.groups, who);
    CreateByChecks(s.core, s.cfg, who, specs, request, now);
  }

  lemma CreateByChecks(c: Core, cfg: Config, who: string, specs: seq<Spec>, request: Option<RetentionRequest>, now: int)
    ensures var answer := CreateBegin(c, cfg, who, specs, request, now).1;
            && CreateAnswered(cfg, |RunningGroups(c.groups, who)|, specs, request, answer)
            && (answer.Ok? ==> answer.value == c.supply)
  {
    hide Route, Accepted, NewItems;
    AcceptedMeans(cfg, specs);
  }

  ghost predicate ReplaceAnswered(s: System, mine: bool, gid: GroupId, specs: seq<Spec>, answer: Result<seq<Item>>) {
    if !(mine && gid in s.core.groups) then answer == Err(SUBSCRIPTION_NOT_FOUND)
    else if s.core.groups[gid].status.Cancelled? || s.core.groups[gid].status.Expired? then
      answer == Err(SUBSCRIPTION_EXPIRED)
    else if |specs| > s.cfg.maxTopics then answer == Err(SUBSCRIPTION_LIMIT_EXCEEDED)
    else SpecsAnswered(s.cfg, specs, answer)
  }

  /** The answers to a replacement and to a cancel: the tokens to unsubscribe are all that the items carry. */
  lemma ReplacesAndCancelsAreAnswered(cfg: Config, actions: seq<Action>, gid: GroupId, who: string, specs: seq<Spec>,
                                      admin: bool)
    requires cfg.maxBuffered >= 1
    ensures var s := Run(Start(cfg), actions);
            var mine := MayUse(cfg, actions, gid, who, admin);
            && ReplaceAnswered(s, mine, gid, specs, ResubscribeBegin(s.core, s.cfg, who, gid, specs, admin).1)
            && var answer := CancelBegin(s.core, who, gid, admin);
               if !mine || gid !in s.core.groups then answer == Err(SUBSCRIPTION_NOT_FOUND)
               else if s.core.groups[gid].status.Cancelled? then answer == Ok(None)
               else
                 && answer.Ok? && answer.value.Some?
                 && forall t :: t in answer.value.value <==>
                                exists i :: 0 <= i < |s.core.groups[gid].items|
                                  && s.core.groups[gid].items[i].token == t
  {
    hide Run, MayUse;
    var s := Run(Start(cfg), actions);
    OwnedExactly(cfg, actions, gid, who, admin);
    ReplaceByChecks(s, who, gid, specs, admin);
    if gid in s.core.groups {
      TokensMeans(s.core.groups[gid].items);
    }
  }

  lemma ReplaceByChecks(s: System, who: string, gid: GroupId, specs: seq<Spec>, admin: bool)
    ensures ReplaceAnswered(s, Owned(s.core, who, gid, admin), gid, specs,
                            ResubscribeBegin(s.core, s.cfg, who, gid, specs, admin).1)
  {
    hide Accepted, NewItems;
    AcceptedMeans(s.cfg, specs);
  }

  lemma TokensMeans(items: seq<Item>)
    ensures forall t :: t in Tokens(items) <==> exists i :: 0 <= i < |items| && items[i].token == t
  {
    forall t ensures t in Tokens(items) <==> exists i :: 0 <= i < |items| && items[i].token == t {
      if i :| 0 <= i < |items| && items[i].token == t {
        assert items[i] in items;
      }
    }
  }

  /** A sweep takes up a group exactly when it counts, is past its lifetime, and has no operation in flight. */
  lemma SweepsTakeTheOverdue(cfg: Config, actions: seq<Action>, gid: GroupId, now: int)
    requires cfg.maxBuffered >= 1
    ensures var s := Run(Start(cfg), actions);
            gid !in s.ops ==>
              (gid in Next(s, Expire(gid, now)).ops <==>
                 && gid in s.core.groups && gid in Remembered(Start(cfg), actions)
                 && Counted(s.core.groups[gid].status)
                 && var m := Remembered(Start(cfg), actions)[gid];
                    exists ttl :: LifetimeIs(s.cfg, m.request, ttl) && now >= m.born + ttl)
  {
    hide Run, Remembered, AllOwe, Tokens, LifetimeIs;
    var s, memory := Run(Start(cfg), actions), Remembered(Start(cfg), actions);
    GroupsOweTheirOrigin(cfg, actions);
    OweAt(s, memory, gid);
    if gid in s.core.groups {
      var g, m := s.core.groups[gid], memory[gid];
      LifetimeOf(s.cfg, g, m);
    }
  }

  lemma LifetimeOf(cfg: Config, g: Group, m: Memory)
    requires Owes(cfg, g, m)
    ensures forall ttl :: LifetimeIs(cfg, m.request, ttl) <==> ttl == g.expiresAt - m.born
  {
  }

  /** A group has expired only if a sweep found it overdue. */
  lemma ExpiredWasOverdue(cfg: Config, actions: seq<Action>, gid: GroupId)
    requires cfg.maxBuffered >= 1 && gid in Run(Start(cfg), actions).core.groups
    requires Run(Start(cfg), actions).core.groups[gid].status.Expired?
    ensures gid in Remembered(Start(cfg), actions)
    ensures var m := Remembered(Start(cfg), actions)[gid];
            m.swept.Some? && Expire(gid, m.swept.value) in actions &&
            exists ttl :: LifetimeIs(Run(Start(cfg), actions).cfg, m.request, ttl) && m.swept.value >= m.born + ttl
  {
    hide Run, Remembered, AllOwe, LifetimeIs;
    var s, memory := Run(Start(cfg), actions), Remembered(Start(cfg), actions);
    GroupsOweTheirOrigin(cfg, actions);
    OweAt(s, memory, gid);
    LifetimeOf(s.cfg, s.core.groups[gid], memory[gid]);
    SweptInRun(Start(cfg), actions, gid);
  }

  lemma {:induction false} SweptInRun(s: System, actions: seq<Action>, gid: GroupId)
    ensures var memory := Remembered(s, actions);
            gid in memory && memory[gid].swept.Some? ==> Expire(gid, memory[gid].swept.value) in actions
  {
    hide Next, Enabled;
    if actions != [] {
      SweptInRun(s, actions[..|actions| - 1], gid);
      assert actions == actions[..|actions| - 1] + [actions[|actions| - 1]];
    }
  }

  // ------------------------------------------------------------------------ waking

  /** An event that reaches a group wakes all its readers. */
  lemma EventsWake(s: System, event: Event, gid: GroupId)
    requires gid in s.core.groups
    ensures gid in Next(s, Native(event)).core.groups
    ensures Next(s, Native(event)).core.groups[gid] != s.core.groups[gid] ==>
              Next(s, Native(event)).core.groups[gid].waiters == {}
  {
    hide Target, Deliver;
    var target := Target(s.core, event.token);
    if target.Some? {
      var (h, i) := target.value;
      TargetIsThere(s.core, event.token);
      DeliverWakes(s.core.groups[h], i, event);
    }
  }

  lemma TargetIsThere(c: Core, token: Token)
    requires Target(c, token).Some?
    ensures var (gid, i) := Target(c, token).value; gid in c.groups && i < |c.groups[gid].items|
  {
  }

  lemma DeliverWakes(g: Group, i: nat, event: Event)
    requires i < |g.items|
    ensures Deliver(g, i, event).waiters == {}
  {
    hide Recompute;
  }

  /** The end of a cancel wakes them too, and the end of an expiry wakes none. */
  lemma EndsWake(s: System, gid: GroupId, ok: bool)
    requires gid in s.core.groups
    ensures Enabled(s, CancelDone(gid, ok)) ==>
              var g' := Next(s, CancelDone(gid, ok)).core.groups[gid]; g'.waiters == {} && g'.status.Cancelled?
    ensures Enabled(s, ExpireDone(gid, ok)) ==>
              var g' := Next(s, ExpireDone(gid, ok)).core.groups[gid];
              g'.waiters == s.core.groups[gid].waiters && g'.status.Expired?
  {
    hide Invalidate, Tokens;
  }
}
