/** The request registry as it is written (registry/requests_registry.py): a dict of records, changed in place. */
module RequestStore {
  import opened Wrappers
  import opened RequestModel
  import opened RequestAdmission
  import opened RequestSystem
  import opened RequestExecutor

  type Rows = seq<(RequestId, RequestRecord)>

  /** The records as the store looks at them. */
  function EntriesOf(rows: Rows): (es: seq<Entry>)
    reads set row | row in rows :: row.1
    ensures |es| == |rows|
    ensures forall k | 0 <= k < |es| :: es[k] == EntryOf(rows[k].0, rows[k].1.View())
  {
    seq(|rows|, k requires 0 <= k < |rows| reads (set row | row in rows :: row.1) =>
      EntryOf(rows[k].0, rows[k].1.View()))
  }

  lemma {:induction false} WithoutTwice(entries: seq<Entry>, ids: set<RequestId>, more: set<RequestId>)
    ensures Without(Without(entries, ids), more) == Without(entries, ids + more)
  {
    if entries != [] {
      var init, last := entries[..|entries| - 1], entries[|entries| - 1];
      WithoutTwice(init, ids, more);
      var kept := Without(init, ids);
      assert (kept + [last])[..|kept|] == kept && kept + [] == kept;
      var left := Without(kept, more);
      assert left + [] == left;
    }
  }

  class RequestRegistry {
    var records: Rows

    constructor ()
      ensures records == []
    {
      records := [];
    }

    ghost function Contents(): seq<Entry>
      reads this, set row | row in records :: row.1
    {
      EntriesOf(records)
    }

    method CountInFlight() returns (n: nat)
      ensures n == InFlightCount(Contents())
    {
      n := 0;
      ghost var es := Contents();
      assert es[..0] == [];
      for i := 0 to |records|
        invariant n == InFlightCount(es[..i])
      {
        assert es[..i + 1][..i] == es[..i];
        if records[i].1.status.InFlight() {
          n := n + 1;
        }
      }
      assert es[..|records|] == es;
    }

    /** records.pop(id, None) */
    method Pop(id: RequestId)
      modifies this
      ensures Contents() == Without(old(Contents()), {id})
      ensures forall row <- records :: row in old(records)
    {
      var kept: Rows := [];
      ghost var es := Contents();
      assert es[..0] == [];
      for i := 0 to |records|
        invariant EntriesOf(kept) == Without(es[..i], {id})
        invariant forall row <- kept :: row in records
      {
        assert es[..i + 1][..i] == es[..i];
        if records[i].0 != id {
          assert EntriesOf(kept + [records[i]]) == EntriesOf(kept) + [es[i]];
          kept := kept + [records[i]];
        }
      }
      assert es[..|records|] == es;
      records := kept;
    }

    method PopAll(victims: seq<Entry>)
      modifies this
      ensures Contents() == Without(old(Contents()), Ids(victims))
      ensures forall row <- records :: row in old(records)
    {
      ghost var es := Contents();
      WithoutNone(es);
      assert victims[..0] == [] && Ids([]) == {};
      for i := 0 to |victims|
        invariant Contents() == Without(es, Ids(victims[..i]))
        invariant forall row <- records :: row in old(records)
      {
        Pop(victims[i].id);
        WithoutTwice(es, Ids(victims[..i]), {victims[i].id});
        assert Ids(victims[..i + 1]) == Ids(victims[..i]) + {victims[i].id};
      }
      assert victims[..|victims|] == victims;
    }

    /** The evictable records, in the order of the dict. */
    method CollectCandidates() returns (candidates: seq<Entry>)
      ensures candidates == Candidates(Contents())
    {
      candidates := [];
      ghost var es := Contents();
      assert es[..0] == [];
      for i := 0 to |records|
        invariant candidates == Candidates(es[..i])
      {
        assert es[..i + 1][..i] == es[..i];
        var e := EntryOf(records[i].0, records[i].1.View());
        if !e.Pinned() {
          candidates := candidates + [e];
        }
      }
      assert es[..|records|] == es;
    }

    method EvictLocked()
      modifies this
      ensures Contents() == Evict(old(Contents()))
      ensures forall row <- records :: row in old(records)
    {
      hide SortByAge, Candidates, Without;
      if |records| <= MAX_RECORDS {
        assert Ids([]) == {};
        WithoutNone(Contents());
        return;
      }
      var overflow := |records| - MAX_RECORDS;
      var candidates := CollectCandidates();
      var sorted := SortByAge(candidates);
      PopAll(RequestModel.Take(sorted, overflow));
    }

    /** A new request is admitted if and only if there is headroom, and then the bound still holds. */
    method TryRegister(id: RequestId, record: RequestRecord, maxTotal: int) returns (ok: bool)
      requires DistinctIds(Contents()) && id !in Ids(Contents())
      modifies this
      ensures ok <==> InFlightCount(old(Contents())) < maxTotal
      ensures Some(Contents()) ==
                if ok then RequestAdmission.TryRegister(old(Contents()), EntryOf(id, record.View()), maxTotal)
                else Some(old(Contents()))
      ensures ok ==> InFlightCount(Contents()) <= maxTotal && DistinctIds(Contents())
    {
      hide Evict, InFlightCount;
      ghost var es, e := Contents(), EntryOf(id, record.View());
      TryRegisterBounded(es, e, maxTotal);
      var inFlight := CountInFlight();
      if inFlight >= maxTotal {
        return false;
      }
      records := records + [(id, record)];
      assert Contents() == es + [e];
      EvictLocked();
      return true;
    }

    method Unregister(id: RequestId)
      modifies this
      ensures Contents() == Without(old(Contents()), {id})
    {
      Pop(id);
    }

    /** Expired records are dropped; requests in flight never are. */
    method SweepExpired(ttl: Option<int>, now: int)
      modifies this
      ensures Contents() == Sweep(old(Contents()), ttl, now)
    {
      ghost var es := Contents();
      var outdated: seq<Entry> := [];
      if ttl.Some? && ttl.value > 0 {
        for i := 0 to |records|
          invariant Ids(outdated) == Outdated(es[..i], ttl, now)
        {
          var e := EntryOf(records[i].0, records[i].1.View());
          assert es[..i + 1] == es[..i] + [es[i]];
          if e.status.Complete() && now >= e.expiresAt {
            assert Ids(outdated + [e]) == Ids(outdated) + {e.id};
            outdated := outdated + [e];
          }
        }
        assert es[..|records|] == es;
      }
      PopAll(outdated);
      assert Ids(outdated) == Outdated(es, ttl, now);
    }
  }
}
