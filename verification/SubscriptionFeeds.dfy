/**
 Native feed conservation: every feed the native library is delivering on is routed, waiting to be
 unsubscribed, or held by the replacement that asked for it, except after the environment steps named
 by Clean.
 */
module SubscriptionFeeds {
  import opened Wrappers
  import opened Cursors
  import opened SubscriptionModel
  import opened SubscriptionSystem
  import opened SubscriptionLedger
  import opened SubscriptionFrames
  import opened SubscriptionSafety
  import opened SubscriptionReads
  import opened SubscriptionReplace
  import opened SubscriptionRuns

  ghost predicate Accounted(t: Token, routed: set<Token>, pending: set<Token>, prospective: Ledger) {
    t in routed || t in pending || exists gid :: gid in prospective && t in prospective[gid]
  }

  ghost predicate AllAccounted(live: set<Token>, routed: set<Token>, pending: set<Token>, prospective: Ledger) {
    forall t <- live :: Accounted(t, routed, pending, prospective)
  }

  ghost predicate Conserved(s: System) {
    AllAccounted(s.live, s.core.tokenMap.Keys, s.core.pending, Prospective(s.ops))
  }

  /**
   What the registry relies on: a subscribe that raises leaves nothing alive (or, for a replacement, the
   rollback unsubscribe removes it), and a group is restored only after its old feeds died with the session.
   */
  ghost predicate Clean(s: System, a: Action) {
    match a
    case CreateDone(gid, Raised(left, _)) => left == {}
    case ResubscribeDone(gid, Raised(left, rolledBack)) => rolledBack || left == {}
    case RestoreDone(gid, Raised(left, _)) => left == {}
    case Restore(gid) =>
      gid in s.core.groups ==> forall t <- Tokens(s.core.groups[gid].items) :: t in s.live ==> t in s.core.pending
    case _ => true
  }

  /** Tokens of operations in flight are where the ledgers say. */
  lemma OpTokensKnown(s: System, gid: GroupId)
    requires Inv(s) && gid in s.ops
    ensures OpTokens(s.ops[gid]) == (if gid in Prospective(s.ops) then Prospective(s.ops)[gid]
                                     else if gid in Carried(s.core.groups) then Carried(s.core.groups)[gid] else {})
    ensures gid in Prospective(s.ops) <==> s.ops[gid].Resubscribing?
    ensures gid in s.core.groups && gid in Carried(s.core.groups)
    ensures !s.ops[gid].Resubscribing? && Subscribes(s.ops[gid]) ==> OpTokens(s.ops[gid]) <= s.core.tokenMap.Keys
    ensures Subscribes(s.ops[gid]) && !s.ops[gid].accepted ==> OpTokens(s.ops[gid]) !! s.live
  {
    hide LogsAgree, RoutingSound, TokensKept, CursorsBounded, ReadsParked, PagesAgree, OpsFit, Tokens;
    OpInFlight(s, gid);
    assert Subscribes(s.ops[gid]) && !s.ops[gid].accepted ==> Unaccepted(s.ops)[gid] == OpTokens(s.ops[gid]);
  }

  // ----------------------------------------------- conservation on the ledgers

  lemma NothingLost(live: set<Token>, routed: set<Token>, pending: set<Token>, prospective: Ledger,
                    live': set<Token>, routed': set<Token>, pending': set<Token>, prospective': Ledger)
    requires AllAccounted(live, routed, pending, prospective) && live' <= live
    requires forall t <- live' :: t in routed ==> t in routed' || t in pending'
    requires forall t <- live' :: t in pending ==> t in pending'
    requires forall gid <- prospective :: gid in prospective' && prospective'[gid] == prospective[gid]
    ensures AllAccounted(live', routed', pending', prospective')
  {
    forall t <- live' ensures Accounted(t, routed', pending', prospective') {
      assert Accounted(t, routed, pending, prospective);
    }
  }

  /** A subscribe is taken: its feeds become live where its tokens are known. */
  lemma Taken(live: set<Token>, routed: set<Token>, pending: set<Token>, prospective: Ledger, tokens: set<Token>)
    requires AllAccounted(live, routed, pending, prospective)
    requires tokens <= routed || exists gid <- prospective :: prospective[gid] == tokens
    ensures AllAccounted(live + tokens, routed, pending, prospective)
  {
    forall t <- live + tokens ensures Accounted(t, routed, pending, prospective) {
      if t in live {
        assert Accounted(t, routed, pending, prospective);
      }
    }
  }

  /** Routed tokens are popped while `left` of them are alive. */
  lemma Popped(counter: nat, carried: Ledger, live: set<Token>, routed: set<Token>, pending: set<Token>,
               prospective: Ledger, gid: GroupId, left: set<Token>)
    requires TokensKept(counter, carried, prospective, routed, pending)
    requires gid in carried && left <= carried[gid] <= routed && carried[gid] !! live
    requires AllAccounted(live, routed, pending, prospective)
    ensures AllAccounted(live + left, routed - carried[gid], pending, prospective) <==> left == {}
  {
    forall t <- live ensures Accounted(t, routed - carried[gid], pending, prospective) {
      assert Accounted(t, routed, pending, prospective);
    }
    if t :| t in left {
      assert !Accounted(t, routed - carried[gid], pending, prospective);
      assert t in live + left;
    }
  }

  /** Prospective tokens are dropped while `left` of them are alive. */
  lemma Dropped(counter: nat, carried: Ledger, live: set<Token>, routed: set<Token>, pending: set<Token>,
                prospective: Ledger, gid: GroupId, left: set<Token>)
    requires TokensKept(counter, carried, prospective, routed, pending)
    requires gid in prospective && left <= prospective[gid] && prospective[gid] !! live
    requires AllAccounted(live, routed, pending, prospective)
    ensures AllAccounted(live + left, routed, pending, prospective - {gid}) <==> left == {}
    ensures AllAccounted(live - prospective[gid], routed, pending, prospective - {gid})
  {
    var rest := prospective - {gid};
    forall t <- live ensures Accounted(t, routed, pending, rest) {
      assert Accounted(t, routed, pending, prospective);
      if h :| h in prospective && t in prospective[h] {
        assert h in rest && t in rest[h];
      }
    }
    if t :| t in left {
      assert !Accounted(t, routed, pending, rest);
      assert t in live + left;
    }
  }

  /** A replacement is committed. */
  lemma Committed(live: set<Token>, routed: set<Token>, pending: set<Token>, prospective: Ledger, gid: GroupId,
                  old': set<Token>)
    requires AllAccounted(live, routed, pending, prospective) && gid in prospective
    ensures AllAccounted(live, routed - old' + prospective[gid], pending + old', prospective - {gid})
  {
    var routed', pending', rest := routed - old' + prospective[gid], pending + old', prospective - {gid};
    forall t <- live ensures Accounted(t, routed', pending', rest) {
      assert Accounted(t, routed, pending, prospective);
      if h :| h in prospective && t in prospective[h] {
        assert h != gid ==> h in rest && t in rest[h];
      }
    }
  }

  /** A restore pops the old tokens of a group without asking anyone to unsubscribe them. */
  lemma Restored(counter: nat, carried: Ledger, live: set<Token>, routed: set<Token>, pending: set<Token>,
                 prospective: Ledger, gid: GroupId, new': set<Token>)
    requires TokensKept(counter, carried, prospective, routed, pending)
    requires gid in carried && (forall t <- new' :: t > counter) && Below(live, counter)
    requires AllAccounted(live, routed, pending, prospective)
    ensures AllAccounted(live, routed - carried[gid] + new', pending, prospective)
            <==> forall t <- carried[gid] :: t in live ==> t in pending
  {
    var routed' := routed - carried[gid] + new';
    if forall t <- carried[gid] :: t in live ==> t in pending {
      forall t <- live ensures Accounted(t, routed', pending, prospective) {
        assert Accounted(t, routed, pending, prospective);
      }
    } else {
      var t :| t in carried[gid] && t in live && t !in pending;
      assert !Accounted(t, routed', pending, prospective);
    }
  }

  // ---------------------------------------------------------- step by step

  /** A create or a restore that raises pops its routing, while `left` of its tokens are alive. */
  lemma PopFeeds(s: System, gid: GroupId, outcome: Outcome)
    requires Inv(s) && Conserved(s) && gid in s.ops && (s.ops[gid].Creating? || s.ops[gid].Restoring?)
    requires outcome.Raised? && Fits(s.ops[gid], outcome)
    ensures outcome.left == {} <==>
              AllAccounted(s.live + outcome.left, (s.core.tokenMap - s.ops[gid].tokens).Keys, s.core.pending,
                           Prospective(s.ops - {gid}))
  {
    hide Inv, TokensKept, Prospective, Carried, AllAccounted;
    var c := s.core;
    OpTokensKnown(s, gid);
    LedgersKept(s);
    NotProspective(s, gid);
    assert (c.tokenMap - s.ops[gid].tokens).Keys == c.tokenMap.Keys - s.ops[gid].tokens;
    Popped(c.tokenCounter, Carried(c.groups), s.live, c.tokenMap.Keys, c.pending, Prospective(s.ops), gid,
           outcome.left);
  }

  lemma LedgersKept(s: System)
    requires Inv(s)
    ensures TokensKept(s.core.tokenCounter, Carried(s.core.groups), Prospective(s.ops), s.core.tokenMap.Keys,
                       s.core.pending)
  {
    hide LogsAgree, RoutingSound, TokensKept, FeedsKept, CursorsBounded, ReadsParked, PagesAgree, OpsFit, Carried,
         Prospective;
  }

  lemma NotProspective(s: System, gid: GroupId)
    requires gid in s.ops && !s.ops[gid].Resubscribing?
    ensures Prospective(s.ops - {gid}) == Prospective(s.ops)
  {
    OpDrop(s.ops, gid);
    assert Prospective(s.ops) - {gid} == Prospective(s.ops);
  }

  lemma CreateDoneFeeds(s: System, gid: GroupId, outcome: Outcome)
    requires Inv(s) && Conserved(s) && gid in s.ops && s.ops[gid].Creating? && Fits(s.ops[gid], outcome)
    ensures Conserved(OnCreateDone(s, gid, outcome)) <==> Clean(s, CreateDone(gid, outcome))
  {
    hide Inv, Prospective, AllAccounted;
    NotProspective(s, gid);
    if outcome.Raised? {
      PopFeeds(s, gid, outcome);
    }
  }

  lemma RestoreDoneFeeds(s: System, gid: GroupId, outcome: Outcome)
    requires Inv(s) && Conserved(s) && gid in s.core.groups && gid in s.ops && s.ops[gid].Restoring?
    requires Fits(s.ops[gid], outcome)
    ensures Conserved(OnRestoreDone(s, gid, outcome)) <==> Clean(s, RestoreDone(gid, outcome))
  {
    hide Inv, Prospective, AllAccounted;
    NotProspective(s, gid);
    if outcome.Raised? {
      PopFeeds(s, gid, outcome);
    }
  }

  lemma CommitFeeds(s: System, gid: GroupId)
    requires Inv(s) && Conserved(s) && gid in s.core.groups && gid in s.ops && s.ops[gid].Resubscribing?
    ensures var c := ResubscribeCommit(s.core, gid, s.ops[gid].items);
            AllAccounted(s.live, c.tokenMap.Keys, c.pending, Prospective(s.ops - {gid}))
  {
    hide Inv, Tokens, Prospective, Carried, AllAccounted, Route, Recompute;
    var c, items := s.core, s.ops[gid].items;
    var gone := Tokens(c.groups[gid].items);
    OpTokensKnown(s, gid);
    OpDrop(s.ops, gid);
    assert (c.tokenMap - gone).Keys == c.tokenMap.Keys - gone;
    RouteKeys(c.tokenMap - gone, gid, items);
    Committed(s.live, c.tokenMap.Keys, c.pending, Prospective(s.ops), gid, gone);
  }

  lemma RollbackFeeds(s: System, gid: GroupId, outcome: Outcome)
    requires Inv(s) && Conserved(s) && gid in s.core.groups && gid in s.ops && s.ops[gid].Resubscribing?
    requires outcome.Raised? && Fits(s.ops[gid], outcome)
    ensures var tokens, rest := Tokens(s.ops[gid].items), Prospective(s.ops - {gid});
            && AllAccounted(s.live - tokens, s.core.tokenMap.Keys, s.core.pending, rest)
            && (outcome.left == {} <==> AllAccounted(s.live + outcome.left, s.core.tokenMap.Keys, s.core.pending, rest))
  {
    hide Inv, TokensKept, Tokens, Prospective, Carried, AllAccounted;
    var c := s.core;
    OpTokensKnown(s, gid);
    OpDrop(s.ops, gid);
    LedgersKept(s);
    Dropped(c.tokenCounter, Carried(c.groups), s.live, c.tokenMap.Keys, c.pending, Prospective(s.ops), gid,
            outcome.left);
  }

  lemma ResubscribeDoneFeeds(s: System, gid: GroupId, outcome: Outcome)
    requires Inv(s) && Conserved(s) && gid in s.core.groups && gid in s.ops && s.ops[gid].Resubscribing?
    requires Fits(s.ops[gid], outcome)
    ensures Conserved(OnResubscribeDone(s, gid, outcome)) <==> Clean(s, ResubscribeDone(gid, outcome))
  {
    hide Inv, Tokens, Prospective, AllAccounted, Route, Recompute;
    ProspectiveUnrouted(s, gid);
    if outcome.Succeeded? {
      CommitFeeds(s, gid);
    } else {
      RollbackFeeds(s, gid, outcome);
    }
  }

  lemma RestoreFeeds(s: System, gid: GroupId)
    requires Inv(s) && Conserved(s) && gid !in s.ops && gid in s.core.groups
    ensures Conserved(OnRestore(s, gid)) <==> Clean(s, Restore(gid))
  {
    hide Inv, TokensKept, Tokens, Prospective, Carried, AllAccounted, Route, Renewed, Below, Invalidate;
    var c := s.core;
    var items := Renewed(c.groups[gid].items, c.tokenCounter);
    var gone := Tokens(c.groups[gid].items);
    GroupInv(s, gid);
    OpPut(s.ops, gid, Restoring(Tokens(items), false));
    assert (c.tokenMap - gone).Keys == c.tokenMap.Keys - gone;
    RouteKeys(c.tokenMap - gone, gid, items);
    RenewedAbove(s, gid);
    LedgersKept(s);
    LiveDrawn(s);
    Restored(c.tokenCounter, Carried(c.groups), s.live, c.tokenMap.Keys, c.pending, Prospective(s.ops), gid,
             Tokens(items));
  }

  lemma RenewedAbove(s: System, gid: GroupId)
    requires Inv(s) && gid in s.core.groups
    ensures forall t <- Tokens(Renewed(s.core.groups[gid].items, s.core.tokenCounter)) :: t > s.core.tokenCounter
  {
    hide Inv;
    RenewedItems(s, gid);
  }

  lemma LiveDrawn(s: System)
    requires Inv(s)
    ensures Below(s.live, s.core.tokenCounter)
  {
    hide LogsAgree, RoutingSound, TokensKept, CursorsBounded, ReadsParked, PagesAgree, OpsFit;
  }

  /** Cancelling and expiring: a feed is unsubscribed, or its token waits to be. */
  lemma EndFeeds(s: System, gid: GroupId, ok: bool)
    requires Inv(s) && Conserved(s) && gid in s.ops && (s.ops[gid].Cancelling? || s.ops[gid].Expiring?)
    ensures var tokens := s.ops[gid].tokens;
            AllAccounted(if ok then s.live - tokens else s.live, (s.core.tokenMap - tokens).Keys,
                         if ok then s.core.pending else s.core.pending + tokens, Prospective(s.ops - {gid}))
  {
    hide LogsAgree, RoutingSound, FeedsKept, CursorsBounded, ReadsParked, PagesAgree, OpsFit, TokensKept, Tokens,
         Prospective, Carried, Unaccepted, AllAccounted;
    var c := s.core;
    var tokens := s.ops[gid].tokens;
    OpTokensKnown(s, gid);
    OpDrop(s.ops, gid);
    assert (c.tokenMap - tokens).Keys == c.tokenMap.Keys - tokens;
    NothingLost(s.live, c.tokenMap.Keys, c.pending, Prospective(s.ops),
                if ok then s.live - tokens else s.live, c.tokenMap.Keys - tokens,
                if ok then c.pending else c.pending + tokens, Prospective(s.ops - {gid}));
  }

  lemma AcceptFeeds(s: System, gid: GroupId)
    requires Inv(s) && Conserved(s) && Enabled(s, Accept(gid))
    ensures Conserved(Next(s, Accept(gid)))
  {
    hide LogsAgree, RoutingSound, FeedsKept, CursorsBounded, ReadsParked, PagesAgree, OpsFit, TokensKept, Tokens,
         Prospective, Carried, Unaccepted, AllAccounted;
    OpTokensKnown(s, gid);
    OpAccept(s.ops, gid);
    Taken(s.live, s.core.tokenMap.Keys, s.core.pending, Prospective(s.ops), OpTokens(s.ops[gid]));
  }

  /** Steps that start something, deliver something or read something. */
  lemma BeginFeeds(s: System, a: Action)
    requires Inv(s) && Conserved(s) && Enabled(s, a)
    requires a.Create? || a.Native? || a.Read? || a.ReadDone? || a.Resubscribe? || a.Cancel? || a.Expire? || a.Retry?
             || a.SessionLost?
    ensures Conserved(Next(s, a))
  {
    hide LogsAgree, RoutingSound, FeedsKept, CursorsBounded, ReadsParked, PagesAgree, OpsFit, TokensKept, Tokens,
         Prospective, Carried, Unaccepted, AllAccounted, Enabled, OnCreate, OnResubscribe, OnRead, OnReadDone, OnNative,
         OnCancel;
    var c := s.core;
    BeginKeepsLedgers(s, a);
    var s' := Next(s, a);
    NothingLost(s.live, c.tokenMap.Keys, c.pending, Prospective(s.ops),
                s'.live, s'.core.tokenMap.Keys, s'.core.pending, Prospective(s'.ops));
  }

  ghost predicate LedgersExtend(s: System, s': System) {
    && s'.live <= s.live && s.core.tokenMap.Keys <= s'.core.tokenMap.Keys
    && (forall t <- s'.live :: t in s.core.pending ==> t in s'.core.pending)
    && (forall gid <- Prospective(s.ops) ::
          gid in Prospective(s'.ops) && Prospective(s'.ops)[gid] == Prospective(s.ops)[gid])
  }

  lemma BeginKeepsLedgers(s: System, a: Action)
    requires Inv(s) && Enabled(s, a)
    requires a.Create? || a.Native? || a.Read? || a.ReadDone? || a.Resubscribe? || a.Cancel? || a.Expire? || a.Retry?
             || a.SessionLost?
    ensures LedgersExtend(s, Next(s, a))
  {
    hide Inv, Tokens, OnCreate, OnNative, OnRead, OnReadDone, OnResubscribe, Prospective, LedgersExtend;
    if a.Create? {
      CreateExtends(s, a.principal, a.specs, a.retention, a.now);
    } else if a.Resubscribe? {
      ResubscribeExtends(s, a.owner, a.gid, a.specs, a.admin);
    } else {
      AsideExtends(s, a);
    }
  }

  lemma CreateExtends(s: System, principal: string, specs: seq<Spec>, retention: Option<RetentionRequest>, now: int)
    requires Inv(s)
    ensures LedgersExtend(s, OnCreate(s, principal, specs, retention, now))
  {
    hide Inv, Tokens, CreateError, Accepted, NewItems, Prospective, Route;
    var gid := s.core.supply;
    var n := Accepted(specs, s.cfg);
    NextIdUnused(s);
    RouteKeys(s.core.tokenMap, gid, NewItems(specs[..n], s.core.tokenCounter, gid + 1));
    OpPut(s.ops, gid, Creating(Tokens(NewItems(specs, s.core.tokenCounter, gid + 1)), false));
  }

  lemma ResubscribeExtends(s: System, principal: string, gid: GroupId, specs: seq<Spec>, admin: bool)
    requires Inv(s) && gid !in s.ops
    ensures LedgersExtend(s, OnResubscribe(s, principal, gid, specs, admin))
  {
    hide Inv, Tokens, ResubscribeError, Accepted, NewItems;
    OpPut(s.ops, gid, Op.Resubscribing(NewItems(specs, s.core.tokenCounter, s.core.supply), false));
  }

  lemma AsideExtends(s: System, a: Action)
    requires Inv(s) && Enabled(s, a)
    requires a.Native? || a.Read? || a.ReadDone? || a.Cancel? || a.Expire? || a.Retry? || a.SessionLost?
    ensures LedgersExtend(s, Next(s, a))
  {
    hide Inv, Tokens, Deliver, Prospective, Target, OnRead, OnReadDone, OnCreate, OnCreateDone, OnResubscribe,
         OnResubscribeDone, OnRestore, OnRestoreDone, OnCancelDone, OnExpireDone;
    match a
    case Read(request, rid, now) => ReadLooks(s, request, rid, now);
    case ReadDone(rid, now) => ReadDoneLooks(s, rid, now);
    case Cancel(principal, gid, admin) =>
      var result := CancelBegin(s.core, principal, gid, admin);
      if result.Ok? && result.value.Some? {
        OpPut(s.ops, gid, Op.Cancelling(result.value.value));
      }
    case Expire(gid, _) =>
      OpPut(s.ops, gid, Expiring(Tokens(s.core.groups[gid].items)));
    case _ =>
  }

  /** One step conserves the feeds exactly when it keeps to what the registry relies on. */
  lemma ConservedExactlyWhenClean(s: System, a: Action)
    requires Inv(s) && Conserved(s) && Enabled(s, a)
    ensures Conserved(Next(s, a)) <==> Clean(s, a)
  {
    hide Inv, Enabled, OnCreate, OnCreateDone, OnNative, OnRead, OnReadDone, OnResubscribe, OnResubscribeDone, OnCancel,
         OnRestore, OnRestoreDone, Tokens, RetryFinish, AllAccounted;
    match a
    case CreateDone(_, _) => DoneFeeds(s, a);
    case ResubscribeDone(_, _) => DoneFeeds(s, a);
    case RestoreDone(_, _) => DoneFeeds(s, a);
    case Restore(gid) => ConservedRestore(s, gid);
    case CancelDone(gid, ok) => ConservedEnd(s, a, gid, ok);
    case ExpireDone(gid, ok) => ConservedEnd(s, a, gid, ok);
    case Accept(gid) => AcceptFeeds(s, gid);
    case _ => BeginFeeds(s, a);
  }

  lemma DoneFeeds(s: System, a: Action)
    requires Inv(s) && Conserved(s) && Enabled(s, a) && (a.CreateDone? || a.ResubscribeDone? || a.RestoreDone?)
    ensures Conserved(Next(s, a)) <==> Clean(s, a)
  {
    hide Inv, Conserved, Clean, OnCreateDone, OnResubscribeDone, OnRestoreDone, Fits;
    match a
    case CreateDone(gid, outcome) => CreateDoneFeeds(s, gid, outcome);
    case ResubscribeDone(gid, outcome) => ResubscribeDoneFeeds(s, gid, outcome);
    case RestoreDone(gid, outcome) => RestoreDoneFeeds(s, gid, outcome);
  }

  lemma ConservedRestore(s: System, gid: GroupId)
    requires Inv(s) && Conserved(s) && Enabled(s, Restore(gid))
    ensures Conserved(Next(s, Restore(gid))) <==> Clean(s, Restore(gid))
  {
    hide Inv, Tokens, AllAccounted, OnRestore;
    RestoreFeeds(s, gid);
  }

  lemma ConservedEnd(s: System, a: Action, gid: GroupId, ok: bool)
    requires Inv(s) && Conserved(s) && Enabled(s, a)
    requires a == CancelDone(gid, ok) || a == ExpireDone(gid, ok)
    ensures Conserved(Next(s, a))
  {
    hide Inv, Tokens, AllAccounted, Invalidate;
    EndFeeds(s, gid, ok);
  }

  ghost predicate CleanRun(s: System, actions: seq<Action>) {
    actions == [] ||
    var before := Run(s, actions[..|actions| - 1]);
    var a := actions[|actions| - 1];
    CleanRun(s, actions[..|actions| - 1]) && (Enabled(before, a) ==> Clean(before, a))
  }

  /** In every state of a run whose environment keeps to its part, no native feed is lost track of. */
  lemma {:induction false} FeedsAreConserved(cfg: Config, actions: seq<Action>)
    requires cfg.maxBuffered >= 1 && CleanRun(Start(cfg), actions)
    ensures Conserved(Run(Start(cfg), actions))
  {
    hide Inv, Enabled, Clean, Conserved, Next;
    if actions == [] {
      StartConserved(cfg);
    } else {
      var init := actions[..|actions| - 1];
      var a := actions[|actions| - 1];
      FeedsAreConserved(cfg, init);
      Reachable(cfg, init);
      if Enabled(Run(Start(cfg), init), a) {
        ConservedExactlyWhenClean(Run(Start(cfg), init), a);
      } else {
        Disabled(Run(Start(cfg), init), a);
      }
    }
  }

  lemma StartConserved(cfg: Config)
    ensures Conserved(Start(cfg))
  {
  }

  lemma Disabled(s: System, a: Action)
    requires !Enabled(s, a)
    ensures Next(s, a) == s
  {
    hide Enabled;
  }

  /** No token is routed and waiting to be unsubscribed at once. */
  lemma NeverBoth(cfg: Config, actions: seq<Action>)
    requires cfg.maxBuffered >= 1
    ensures var c := Run(Start(cfg), actions).core; c.tokenMap.Keys !! c.pending
  {
    hide Run, LogsAgree, RoutingSound, FeedsKept, OpsFit, CursorsBounded, ReadsParked, PagesAgree;
    Reachable(cfg, actions);
  }
}
