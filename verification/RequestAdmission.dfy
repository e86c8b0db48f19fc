/** The request store as values (registry/requests_registry.py): bounded admission, eviction and expiry. */
module RequestAdmission {
  import opened Wrappers
  import opened RequestModel

  const MAX_RECORDS: nat := 10_000

  type RequestId = nat

  /** What the store looks at of a record. */
  datatype Entry = Entry(id: RequestId, status: Status, createdAt: int, expiresAt: int) {
    /** Running requests are never evicted. */
    predicate Pinned() {
      status.Sent? || status.Partial? || status.Cancelling?
    }
  }

  function InFlightCount(entries: seq<Entry>): nat {
    if entries == [] then 0
    else InFlightCount(entries[..|entries| - 1]) + if entries[|entries| - 1].status.InFlight() then 1 else 0
  }

  function Ids(entries: seq<Entry>): set<RequestId> {
    set e <- entries :: e.id
  }

  ghost predicate DistinctIds(entries: seq<Entry>) {
    forall i, j | 0 <= i < j < |entries| :: entries[i].id != entries[j].id
  }

  function Candidates(entries: seq<Entry>): seq<Entry> {
    if entries == [] then []
    else
      var last := entries[|entries| - 1];
      Candidates(entries[..|entries| - 1]) + if last.Pinned() then [] else [last]
  }

  /** Stable insertion by creation time. */
  function InsertByAge(sorted: seq<Entry>, e: Entry): seq<Entry> {
    if sorted == [] || sorted[|sorted| - 1].createdAt <= e.createdAt then sorted + [e]
    else InsertByAge(sorted[..|sorted| - 1], e) + [sorted[|sorted| - 1]]
  }

  function SortByAge(entries: seq<Entry>): seq<Entry> {
    if entries == [] then [] else InsertByAge(SortByAge(entries[..|entries| - 1]), entries[|entries| - 1])
  }

  function Without(entries: seq<Entry>, ids: set<RequestId>): seq<Entry> {
    if entries == [] then []
    else
      var last := entries[|entries| - 1];
      Without(entries[..|entries| - 1], ids) + if last.id in ids then [] else [last]
  }

  /** The first of the candidates, oldest first, as many as there are too many records. */
  function Victims(entries: seq<Entry>): seq<Entry> {
    if |entries| <= MAX_RECORDS then []
    else Take(SortByAge(Candidates(entries)), |entries| - MAX_RECORDS)
  }

  function Evict(entries: seq<Entry>): seq<Entry> {
    Without(entries, Ids(Victims(entries)))
  }

  function TryRegister(entries: seq<Entry>, e: Entry, maxTotal: int): Option<seq<Entry>> {
    if InFlightCount(entries) >= maxTotal then None else Some(Evict(entries + [e]))
  }

  /** Completed records are dropped once they have expired; retention can be switched off. */
  function Outdated(entries: seq<Entry>, ttl: Option<int>, now: int): set<RequestId> {
    set e <- entries | ttl.Some? && ttl.value > 0 && e.status.Complete() && now >= e.expiresAt :: e.id
  }

  function Sweep(entries: seq<Entry>, ttl: Option<int>, now: int): seq<Entry> {
    Without(entries, Outdated(entries, ttl, now))
  }

  // ------------------------------------------------------------- properties

  lemma DistinctSnoc(entries: seq<Entry>, e: Entry)
    requires DistinctIds(entries) && e.id !in Ids(entries)
    ensures DistinctIds(entries + [e])
  {
    forall i | 0 <= i < |entries| ensures entries[i].id != e.id {
      assert entries[i] in entries;
    }
  }

  lemma DistinctSplit(entries: seq<Entry>)
    requires DistinctIds(entries) && entries != []
    ensures DistinctIds(entries[..|entries| - 1]) && entries[|entries| - 1].id !in Ids(entries[..|entries| - 1])
    ensures entries == entries[..|entries| - 1] + [entries[|entries| - 1]]
  {
  }

  lemma SameIdSameEntry(entries: seq<Entry>, a: Entry, b: Entry)
    requires DistinctIds(entries) && a in entries && b in entries && a.id == b.id
    ensures a == b
  {
  }

  lemma {:induction false} WithoutMembers(entries: seq<Entry>, ids: set<RequestId>)
    ensures forall e :: e in Without(entries, ids) <==> e in entries && e.id !in ids
  {
    if entries != [] {
      var init, last := entries[..|entries| - 1], entries[|entries| - 1];
      WithoutMembers(init, ids);
      assert entries == init + [last];
    }
  }

  lemma {:induction false} WithoutDistinct(entries: seq<Entry>, ids: set<RequestId>)
    requires DistinctIds(entries)
    ensures DistinctIds(Without(entries, ids))
  {
    if entries != [] {
      var init, last := entries[..|entries| - 1], entries[|entries| - 1];
      DistinctSplit(entries);
      WithoutDistinct(init, ids);
      WithoutMembers(init, ids);
      if last.id !in ids {
        DistinctSnoc(Without(init, ids), last);
      }
    }
  }

  lemma {:induction false} WithoutInFlight(entries: seq<Entry>, ids: set<RequestId>)
    ensures InFlightCount(Without(entries, ids)) <= InFlightCount(entries)
  {
    if entries != [] {
      var init, last := entries[..|entries| - 1], entries[|entries| - 1];
      WithoutInFlight(init, ids);
      var kept := Without(init, ids);
      assert (kept + [last])[..|kept|] == kept && kept + [] == kept;
    }
  }

  lemma {:induction false} WithoutSame(entries: seq<Entry>, ids: set<RequestId>, ids': set<RequestId>)
    requires forall e <- entries :: e.id in ids <==> e.id in ids'
    ensures Without(entries, ids) == Without(entries, ids')
  {
    if entries != [] {
      assert entries[|entries| - 1] in entries;
      WithoutSame(entries[..|entries| - 1], ids, ids');
    }
  }

  lemma {:induction false} WithoutNone(entries: seq<Entry>)
    ensures Without(entries, {}) == entries
  {
    if entries != [] {
      WithoutNone(entries[..|entries| - 1]);
    }
  }

  lemma {:induction false} WithoutLength(entries: seq<Entry>, ids: set<RequestId>)
    requires DistinctIds(entries) && ids <= Ids(entries)
    ensures |Without(entries, ids)| == |entries| - |ids|
  {
    if entries == [] {
      assert ids == {};
    } else {
      var init, last := entries[..|entries| - 1], entries[|entries| - 1];
      DistinctSplit(entries);
      WithoutSame(init, ids, ids - {last.id});
      WithoutLength(init, ids - {last.id});
    }
  }

  ghost predicate ByAge(entries: seq<Entry>) {
    forall i, j | 0 <= i <= j < |entries| :: entries[i].createdAt <= entries[j].createdAt
  }

  ghost predicate SameMembers(a: seq<Entry>, b: seq<Entry>) {
    forall e :: e in a <==> e in b
  }

  lemma {:induction false} InsertMembers(sorted: seq<Entry>, e: Entry)
    ensures SameMembers(InsertByAge(sorted, e), sorted + [e]) && |InsertByAge(sorted, e)| == |sorted| + 1
  {
    if sorted != [] && sorted[|sorted| - 1].createdAt > e.createdAt {
      var init, last := sorted[..|sorted| - 1], sorted[|sorted| - 1];
      InsertMembers(init, e);
      assert sorted == init + [last];
    }
  }

  lemma {:induction false} InsertSorts(sorted: seq<Entry>, e: Entry)
    requires ByAge(sorted)
    ensures ByAge(InsertByAge(sorted, e))
  {
    if sorted != [] && sorted[|sorted| - 1].createdAt > e.createdAt {
      var init, last := sorted[..|sorted| - 1], sorted[|sorted| - 1];
      InsertSorts(init, e);
      InsertMembers(init, e);
      var inserted := InsertByAge(init, e);
      forall i | 0 <= i < |inserted| ensures inserted[i].createdAt <= last.createdAt {
        assert inserted[i] in inserted && inserted[i] in init + [e];
      }
    }
  }

  lemma {:induction false} InsertDistinct(sorted: seq<Entry>, e: Entry)
    requires DistinctIds(sorted) && e.id !in Ids(sorted)
    ensures DistinctIds(InsertByAge(sorted, e))
  {
    if sorted != [] && sorted[|sorted| - 1].createdAt > e.createdAt {
      var init, last := sorted[..|sorted| - 1], sorted[|sorted| - 1];
      DistinctSplit(sorted);
      InsertDistinct(init, e);
      InsertMembers(init, e);
      assert last in sorted;
      assert last.id !in Ids(InsertByAge(init, e));
      DistinctSnoc(InsertByAge(init, e), last);
    } else {
      DistinctSnoc(sorted, e);
    }
  }

  lemma {:induction false} SortByAgeSorts(entries: seq<Entry>)
    requires DistinctIds(entries)
    ensures ByAge(SortByAge(entries)) && SameMembers(SortByAge(entries), entries) && DistinctIds(SortByAge(entries))
    ensures |SortByAge(entries)| == |entries|
  {
    if entries != [] {
      var init, last := entries[..|entries| - 1], entries[|entries| - 1];
      DistinctSplit(entries);
      SortByAgeSorts(init);
      InsertSorts(SortByAge(init), last);
      InsertMembers(SortByAge(init), last);
      InsertDistinct(SortByAge(init), last);
    }
  }

  lemma {:induction false} CandidateMembers(entries: seq<Entry>)
    ensures forall e :: e in Candidates(entries) <==> e in entries && !e.Pinned()
  {
    if entries != [] {
      var init, last := entries[..|entries| - 1], entries[|entries| - 1];
      CandidateMembers(init);
      assert entries == init + [last];
    }
  }

  lemma {:induction false} CandidatesDistinct(entries: seq<Entry>)
    requires DistinctIds(entries)
    ensures DistinctIds(Candidates(entries))
  {
    if entries != [] {
      var init, last := entries[..|entries| - 1], entries[|entries| - 1];
      DistinctSplit(entries);
      CandidatesDistinct(init);
      CandidateMembers(init);
      if !last.Pinned() {
        DistinctSnoc(Candidates(init), last);
      }
    }
  }

  lemma {:induction false} IdsOfDistinct(entries: seq<Entry>)
    requires DistinctIds(entries)
    ensures |Ids(entries)| == |entries|
  {
    if entries != [] {
      var init, last := entries[..|entries| - 1], entries[|entries| - 1];
      DistinctSplit(entries);
      IdsOfDistinct(init);
      assert Ids(entries) == Ids(init) + {last.id};
    }
  }

  lemma PrefixIsOldest(sorted: seq<Entry>, n: nat, e: Entry, other: Entry)
    requires ByAge(sorted) && n <= |sorted| && e in sorted[..n] && other in sorted && other !in sorted[..n]
    ensures e.createdAt <= other.createdAt
  {
    var i :| 0 <= i < n && sorted[i] == e;
    var j :| 0 <= j < |sorted| && sorted[j] == other;
    assert forall k | 0 <= k < n :: sorted[k] in sorted[..n];
  }

  /** The victims are the oldest of the evictable records, as many as needed or all of them. */
  lemma VictimsAreOldest(entries: seq<Entry>)
    requires DistinctIds(entries)
    ensures DistinctIds(Victims(entries))
    ensures forall e <- Victims(entries) :: e in entries && !e.Pinned()
    ensures forall e <- Victims(entries), other <- entries ::
              !other.Pinned() && other !in Victims(entries) ==> e.createdAt <= other.createdAt
    ensures |Victims(entries)| == |entries| - MAX_RECORDS || |entries| <= MAX_RECORDS
            || forall e <- entries :: e in Victims(entries) || e.Pinned()
  {
    var candidates, victims := Candidates(entries), Victims(entries);
    var sorted := SortByAge(candidates);
    CandidateMembers(entries);
    CandidatesDistinct(entries);
    SortByAgeSorts(candidates);
    forall e <- victims, other <- entries | !other.Pinned() && other !in victims
      ensures e.createdAt <= other.createdAt {
      PrefixIsOldest(sorted, |victims|, e, other);
    }
  }

  /** Eviction: the oldest evictable records go, no more than needed, and every other record stays. */
  lemma EvictOldestFirst(entries: seq<Entry>)
    requires DistinctIds(entries)
    ensures DistinctIds(Evict(entries)) && InFlightCount(Evict(entries)) <= InFlightCount(entries)
    ensures forall e :: e in Evict(entries) <==> e in entries && e !in Victims(entries)
    ensures forall e <- Victims(entries) :: e in entries && !e.Pinned()
    ensures forall e <- Victims(entries), kept <- Evict(entries) :: !kept.Pinned() ==> e.createdAt <= kept.createdAt
    ensures |Evict(entries)| == |entries| - |Victims(entries)|
    ensures |Evict(entries)| <= MAX_RECORDS || forall kept <- Evict(entries) :: kept.Pinned()
  {
    hide Victims, Without;
    var victims := Victims(entries);
    VictimsAreOldest(entries);
    WithoutMembers(entries, Ids(victims));
    WithoutDistinct(entries, Ids(victims));
    WithoutInFlight(entries, Ids(victims));
    forall e <- entries ensures e.id in Ids(victims) <==> e in victims {
      if e.id in Ids(victims) {
        var v :| v in victims && v.id == e.id;
        SameIdSameEntry(entries, e, v);
      }
    }
    IdsOfDistinct(victims);
    WithoutLength(entries, Ids(victims));
  }

  /** Admission keeps the number of requests in flight within the bound, and never drops a running one. */
  lemma TryRegisterBounded(entries: seq<Entry>, e: Entry, maxTotal: int)
    requires DistinctIds(entries) && e.id !in Ids(entries)
    ensures var r := TryRegister(entries, e, maxTotal);
            && (r.None? <==> InFlightCount(entries) >= maxTotal)
            && (r.Some? ==>
                  && InFlightCount(r.value) <= maxTotal && DistinctIds(r.value)
                  && (forall x <- r.value :: x in entries || x == e)
                  && (forall x <- entries :: x.Pinned() ==> x in r.value))
  {
    var more := entries + [e];
    assert more[..|entries|] == entries;
    DistinctSnoc(entries, e);
    EvictOldestFirst(more);
    assert forall x <- entries :: x in more;
  }

  /** A sweep drops exactly the completed records that have expired. */
  lemma SweepDropsExpired(entries: seq<Entry>, ttl: Option<int>, now: int)
    requires DistinctIds(entries)
    ensures DistinctIds(Sweep(entries, ttl, now)) && InFlightCount(Sweep(entries, ttl, now)) <= InFlightCount(entries)
    ensures forall e :: e in Sweep(entries, ttl, now) <==>
              e in entries && !(ttl.Some? && ttl.value > 0 && e.status.Complete() && now >= e.expiresAt)
  {
    var ids := Outdated(entries, ttl, now);
    WithoutMembers(entries, ids);
    WithoutDistinct(entries, ids);
    WithoutInFlight(entries, ids);
    forall e <- entries | e.id in ids ensures ttl.Some? && ttl.value > 0 && e.status.Complete() && now >= e.expiresAt {
      var x :| x in entries && x.id == e.id && ttl.Some? && ttl.value > 0 && x.status.Complete() && now >= x.expiresAt;
      SameIdSameEntry(entries, e, x);
    }
  }
}
