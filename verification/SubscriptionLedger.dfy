/** How each kind of step moves native tokens between the places that know them. */
module SubscriptionLedger {
  import opened SubscriptionModel
  import opened SubscriptionSystem

  lemma TokensOf(items: seq<Item>, items': seq<Item>)
    requires |items'| == |items| && forall i | 0 <= i < |items| :: items'[i].token == items[i].token
    ensures Tokens(items') == Tokens(items)
  {
    forall t ensures t in Tokens(items') <==> t in Tokens(items) {
      if t in Tokens(items') {
        var i :| 0 <= i < |items'| && items'[i].token == t;
        assert items[i] in items;
      }
      if t in Tokens(items) {
        var i :| 0 <= i < |items| && items[i].token == t;
        assert items'[i] in items';
      }
    }
  }

  lemma {:induction false} RouteKeys(tokenMap: map<Token, (GroupId, ItemId)>, gid: GroupId, items: seq<Item>)
    ensures Route(tokenMap, gid, items).Keys == tokenMap.Keys + Tokens(items)
  {
    if items != [] {
      var init := items[..|items| - 1];
      assert items == init + [items[|items| - 1]];
      RouteKeys(tokenMap, gid, init);
    }
  }

  /** A routed token names an item of the group that carries it; other entries are as they were. */
  lemma {:induction false} RouteEntries(tokenMap: map<Token, (GroupId, ItemId)>, gid: GroupId, items: seq<Item>,
                                        t: Token)
    requires t in Route(tokenMap, gid, items)
    ensures t !in Tokens(items) ==> t in tokenMap && Route(tokenMap, gid, items)[t] == tokenMap[t]
    ensures t in Tokens(items) ==>
              var entry := Route(tokenMap, gid, items)[t];
              entry.0 == gid && exists i | 0 <= i < |items| :: items[i].id == entry.1 && items[i].token == t
  {
    RouteKeys(tokenMap, gid, items);
    if items != [] {
      var init := items[..|items| - 1];
      assert items == init + [items[|items| - 1]];
      if t != items[|items| - 1].token {
        RouteEntries(tokenMap, gid, init, t);
        if t in Tokens(items) {
          assert t in Tokens(init);
          var entry := Route(tokenMap, gid, init)[t];
          var i :| 0 <= i < |init| && init[i].id == entry.1 && init[i].token == t;
          assert items[i] == init[i];
        }
      }
    }
  }

  lemma CarriedPut(groups: Groups, gid: GroupId, g: Group)
    ensures Carried(groups[gid := g]) == Carried(groups)[gid := Tokens(g.items)]
  {
  }

  lemma CarriedSame(groups: Groups, gid: GroupId, g: Group)
    requires gid in groups && Tokens(g.items) == Tokens(groups[gid].items)
    ensures Carried(groups[gid := g]) == Carried(groups)
  {
  }

  lemma CarriedDrop(groups: Groups, gid: GroupId)
    ensures Carried(groups - {gid}) == Carried(groups) - {gid}
  {
  }

  lemma OpPut(ops: map<GroupId, Op>, gid: GroupId, op: Op)
    requires op.Resubscribing? || gid !in ops
    ensures Prospective(ops[gid := op]) ==
              if op.Resubscribing? then Prospective(ops)[gid := Tokens(op.items)] else Prospective(ops)
    ensures Unaccepted(ops[gid := op]) ==
              if Subscribes(op) && !op.accepted then Unaccepted(ops)[gid := OpTokens(op)] else Unaccepted(ops) - {gid}
  {
  }

  lemma OpAccept(ops: map<GroupId, Op>, gid: GroupId)
    requires gid in ops && Subscribes(ops[gid])
    ensures Prospective(ops[gid := ops[gid].(accepted := true)]) == Prospective(ops)
    ensures Unaccepted(ops[gid := ops[gid].(accepted := true)]) == Unaccepted(ops) - {gid}
  {
  }

  lemma OpDrop(ops: map<GroupId, Op>, gid: GroupId)
    ensures Prospective(ops - {gid}) == Prospective(ops) - {gid}
    ensures Unaccepted(ops - {gid}) == Unaccepted(ops) - {gid}
  {
  }

  ghost predicate Fresh(tokens: set<Token>, counter: nat, counter': nat) {
    counter <= counter' && forall t <- tokens :: counter < t <= counter'
  }

  /** Newly drawn tokens are routed and carried by a group; what it carried before is no longer routed. */
  lemma Adopt(counter: nat, counter': nat, carried: Ledger, prospective: Ledger, routed: set<Token>,
              pending: set<Token>, gid: GroupId, new': set<Token>, gone: set<Token>)
    requires TokensKept(counter, carried, prospective, routed, pending)
    requires Fresh(new', counter, counter')
    ensures TokensKept(counter', carried[gid := new'], prospective, routed - gone + new', pending)
    ensures TokensKept(counter', carried[gid := new'], prospective, routed + new', pending)
    ensures TokensKept(counter', carried, prospective, routed + new', pending)
  {
  }

  /** Newly drawn tokens are held back for a replacement. */
  lemma HoldBack(counter: nat, counter': nat, carried: Ledger, prospective: Ledger, routed: set<Token>,
                 pending: set<Token>, gid: GroupId, new': set<Token>)
    requires TokensKept(counter, carried, prospective, routed, pending)
    requires Fresh(new', counter, counter')
    ensures TokensKept(counter', carried, prospective[gid := new'], routed, pending)
    ensures TokensKept(counter', carried, prospective, routed, pending)
  {
  }

  /** Tokens a group carries stop being routed and may wait to be unsubscribed. */
  lemma Retire(counter: nat, carried: Ledger, prospective: Ledger, routed: set<Token>, pending: set<Token>,
               gid: GroupId, pending': set<Token>)
    requires TokensKept(counter, carried, prospective, routed, pending)
    requires gid in carried && pending' <= pending + carried[gid]
    ensures TokensKept(counter, carried, prospective, routed - carried[gid], pending')
    ensures TokensKept(counter, carried - {gid}, prospective, routed - carried[gid], pending')
  {
  }

  /** A replacement is committed: prospective tokens become carried and routed, the old ones wait to be unsubscribed. */
  lemma Commit(counter: nat, carried: Ledger, prospective: Ledger, routed: set<Token>, pending: set<Token>,
               gid: GroupId)
    requires TokensKept(counter, carried, prospective, routed, pending)
    requires gid in carried && gid in prospective
    ensures TokensKept(counter, carried[gid := prospective[gid]], prospective - {gid},
                       routed - carried[gid] + prospective[gid], pending + carried[gid])
  {
  }

  lemma Release(counter: nat, carried: Ledger, prospective: Ledger, routed: set<Token>, pending: set<Token>,
                gid: GroupId, routed': set<Token>, pending': set<Token>)
    requires TokensKept(counter, carried, prospective, routed, pending)
    requires routed' <= routed && pending' <= pending
    ensures TokensKept(counter, carried, prospective - {gid}, routed', pending')
    ensures TokensKept(counter, carried, prospective, routed', pending')
  {
  }

  /** An awaited subscribe is for the tokens of the group, or of its replacement. */
  lemma UnacceptedOf(s: System, gid: GroupId)
    requires Inv(s) && gid in Unaccepted(s.ops)
    ensures var carried, prospective := Carried(s.core.groups), Prospective(s.ops);
            if gid in prospective then Unaccepted(s.ops)[gid] == prospective[gid]
            else gid in carried && Unaccepted(s.ops)[gid] == carried[gid]
  {
    hide LogsAgree, RoutingSound, TokensKept, FeedsKept, CursorsBounded, ReadsParked, PagesAgree;
    assert OpFits(s.core.groups, s.core.tokenMap.Keys, gid, s.ops[gid]);
  }

  /** Subscribes in flight for different groups wait on different tokens. */
  lemma UnacceptedApart(s: System)
    requires Inv(s)
    ensures PairwiseApart(Unaccepted(s.ops))
  {
    hide LogsAgree, RoutingSound, FeedsKept, OpsFit, CursorsBounded, ReadsParked, PagesAgree, Unaccepted, Carried,
         Prospective;
    forall gid, hid | gid in Unaccepted(s.ops) && hid in Unaccepted(s.ops) && gid != hid
      ensures Unaccepted(s.ops)[gid] !! Unaccepted(s.ops)[hid]
    {
      UnacceptedOf(s, gid);
      UnacceptedOf(s, hid);
    }
  }

  lemma FeedsTaken(counter: nat, unaccepted: Ledger, live: set<Token>, gid: GroupId, left: set<Token>)
    requires FeedsKept(counter, unaccepted, live) && PairwiseApart(unaccepted)
    requires gid in unaccepted && left <= unaccepted[gid] && Below(unaccepted[gid], counter)
    ensures FeedsKept(counter, unaccepted - {gid}, live + left)
  {
  }

  lemma FeedsDropped(counter: nat, counter': nat, unaccepted: Ledger, live: set<Token>, gid: GroupId, live': set<Token>)
    requires FeedsKept(counter, unaccepted, live) && counter <= counter' && live' <= live
    ensures FeedsKept(counter', unaccepted - {gid}, live')
    ensures FeedsKept(counter', unaccepted, live')
  {
  }

  lemma FeedsAwaited(counter: nat, counter': nat, unaccepted: Ledger, live: set<Token>, gid: GroupId, new': set<Token>)
    requires FeedsKept(counter, unaccepted, live) && Fresh(new', counter, counter')
    ensures FeedsKept(counter', unaccepted[gid := new'], live)
  {
  }
}
