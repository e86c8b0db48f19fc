/**
 Subscription read cursors (registry/cursors.py): a bounded store of opaque, principal-bound,
 expiring handles that are replaced each time they are used.

 Random handles are modelled as a counter that never repeats.
 */
module Cursors {
  import opened Wrappers

  type CursorId = nat

  const MAX_CURSORS: nat := 10_000

  datatype Cursor = Cursor(
    id: CursorId,
    subscription: nat,
    generation: nat,
    offset: nat,
    principal: Option<string>,
    expiresAt: Option<int>)

  /** The abstract value of a CursorRegistry. */
  datatype CursorStore = CursorStore(entries: map<CursorId, Cursor>, next: CursorId)

  ghost predicate WellFormed(store: CursorStore) {
    forall k <- store.entries :: store.entries[k].id == k && k < store.next
  }

  predicate Expired(cursor: Cursor, now: int) {
    cursor.expiresAt.Some? && now >= cursor.expiresAt.value
  }

  /** Eviction sorts by expiry; a cursor without one counts as expiring now. */
  function Age(cursor: Cursor, now: int): int {
    if cursor.expiresAt.Some? then cursor.expiresAt.value else now
  }

  /** Eviction order: by expiry, then by creation (the sort is stable). */
  predicate Older(a: Cursor, b: Cursor, now: int) {
    Age(a, now) < Age(b, now) || (Age(a, now) == Age(b, now) && a.id <= b.id)
  }

  ghost predicate IsOldest(k: CursorId, entries: map<CursorId, Cursor>, now: int) {
    k in entries && forall j <- entries :: Older(entries[k], entries[j], now)
  }

  lemma {:induction false} OldestExists(entries: map<CursorId, Cursor>, now: int)
    requires entries != map[]
    ensures exists k :: IsOldest(k, entries, now)
    decreases |entries|
  {
    var k :| k in entries;
    var rest := entries - {k};
    assert rest.Keys == entries.Keys - {k};
    assert forall j <- entries :: j == k || (j in rest && rest[j] == entries[j]);
    if rest == map[] {
      assert rest.Keys == {};
      assert IsOldest(k, entries, now);
    } else {
      OldestExists(rest, now);
      var m :| IsOldest(m, rest, now);
      var best := if Older(entries[k], entries[m], now) then k else m;
      forall j <- entries ensures Older(entries[best], entries[j], now) {
      }
      assert IsOldest(best, entries, now);
    }
  }

  ghost function Unexpired(entries: map<CursorId, Cursor>, now: int): map<CursorId, Cursor> {
    map k | k in entries && !Expired(entries[k], now) :: entries[k]
  }

  ghost function DropOldest(entries: map<CursorId, Cursor>, now: int): map<CursorId, Cursor>
    decreases |entries|
  {
    if |entries| <= MAX_CURSORS then entries
    else
      OldestExists(entries, now);
      var k :| IsOldest(k, entries, now);
      DropOldest(entries - {k}, now)
  }

  ghost function Evict(entries: map<CursorId, Cursor>, now: int): map<CursorId, Cursor> {
    if |entries| <= MAX_CURSORS then entries else DropOldest(Unexpired(entries, now), now)
  }

  ghost function Draw(store: CursorStore, subscription: nat, generation: nat, offset: nat,
                      principal: Option<string>, ttl: int, now: int): Cursor {
    Cursor(store.next, subscription, generation, offset, principal, if ttl != 0 then Some(now + ttl) else None)
  }

  ghost function Insert(store: CursorStore, cursor: Cursor, now: int): CursorStore {
    CursorStore(Evict(store.entries[cursor.id := cursor], now), cursor.id + 1)
  }

  /** A handle that has expired, or is presented by another principal, is destroyed on sight. */
  ghost predicate Presentable(store: CursorStore, id: CursorId, principal: string, now: int) {
    && id in store.entries
    && !Expired(store.entries[id], now)
    && (store.entries[id].principal.Some? ==> store.entries[id].principal.value == principal)
  }

  ghost function AfterResolve(store: CursorStore, id: CursorId, principal: string, now: int): CursorStore {
    if Presentable(store, id, principal, now) then store else store.(entries := store.entries - {id})
  }

  ghost function Forget(store: CursorStore, id: CursorId): CursorStore {
    store.(entries := store.entries - {id})
  }

  ghost function Invalidate(store: CursorStore, subscription: nat): CursorStore {
    store.(entries := map k | k in store.entries && store.entries[k].subscription != subscription :: store.entries[k])
  }

  /** What eviction keeps: never more than the bound, only entries that were there, all of them when
      they fit, and otherwise exactly as many of the youngest unexpired entries as fit. */
  lemma {:induction false} EvictionKeepsTheYoungest(entries: map<CursorId, Cursor>, now: int)
    ensures var kept := Evict(entries, now);
            && kept.Keys <= entries.Keys
            && (forall k <- kept :: kept[k] == entries[k])
            && |kept| <= MAX_CURSORS
            && (|entries| <= MAX_CURSORS ==> kept == entries)
            && (|entries| > MAX_CURSORS ==>
                  && |kept| == (if |Unexpired(entries, now)| < MAX_CURSORS then |Unexpired(entries, now)|
                                else MAX_CURSORS)
                  && (forall k <- kept :: !Expired(entries[k], now))
                  && (forall k, j | k in kept && j in entries && j !in kept && !Expired(entries[j], now) ::
                        Older(entries[j], entries[k], now)))
  {
    DropOldestKeepsTheYoungest(Unexpired(entries, now), now);
  }

  lemma {:induction false} DropOldestKeepsTheYoungest(entries: map<CursorId, Cursor>, now: int)
    ensures var kept := DropOldest(entries, now);
            && kept.Keys <= entries.Keys
            && (forall k <- kept :: kept[k] == entries[k])
            && |kept| == (if |entries| < MAX_CURSORS then |entries| else MAX_CURSORS)
            && (forall k, j | k in kept && j in entries && j !in kept :: Older(entries[j], entries[k], now))
    decreases |entries|
  {
    if |entries| > MAX_CURSORS {
      OldestExists(entries, now);
      var k :| IsOldest(k, entries, now) && DropOldest(entries, now) == DropOldest(entries - {k}, now);
      var rest := entries - {k};
      assert rest.Keys == entries.Keys - {k};
      DropOldestKeepsTheYoungest(rest, now);
      var kept := DropOldest(rest, now);
      forall i, j | i in kept && j in entries && j !in kept
        ensures Older(entries[j], entries[i], now)
      {
        if j != k {
          assert j in rest && rest[j] == entries[j];
        }
      }
    }
  }

  /** A handle that is not stored, once it has been drawn, is never stored again, whatever is done next. */
  lemma {:induction false} GoneForGood(store: CursorStore, id: CursorId, other: Cursor, now: int, principal: string)
    requires WellFormed(store) && id < store.next && id !in store.entries
    ensures other.id == store.next ==>
              && id !in Insert(store, other, now).entries && id < Insert(store, other, now).next
              && WellFormed(Insert(store, other, now))
    ensures forall k :: id !in AfterResolve(store, k, principal, now).entries
    ensures forall k :: id !in Forget(store, k).entries
    ensures forall s :: id !in Invalidate(store, s).entries
  {
    EvictionKeepsTheYoungest(store.entries[other.id := other], now);
  }

  class CursorRegistry {
    var cursors: map<CursorId, Cursor>
    var next: CursorId

    ghost function View(): CursorStore
      reads this
    {
      CursorStore(cursors, next)
    }

    ghost predicate Valid()
      reads this
    {
      WellFormed(View())
    }

    constructor ()
      ensures Valid() && View() == CursorStore(map[], 0)
    {
      cursors, next := map[], 0;
    }

    method Create(subscription: nat, generation: nat, offset: nat, principal: Option<string>, ttl: int, now: int)
      returns (cursor: Cursor)
      requires Valid()
      modifies this
      ensures Valid()
      ensures cursor == Draw(old(View()), subscription, generation, offset, principal, ttl, now)
      ensures View() == Insert(old(View()), cursor, now)
    {
      var expiry := if ttl != 0 then Some(now + ttl) else None;
      cursor := Cursor(next, subscription, generation, offset, principal, expiry);
      cursors := cursors[cursor.id := cursor];
      next := next + 1;
      EvictIfNeeded(now);
      EvictionKeepsTheYoungest(old(cursors)[cursor.id := cursor], now);
    }

    method EvictIfNeeded(now: int)
      requires Valid()
      modifies this`cursors
      ensures cursors == Evict(old(cursors), now)
    {
      if |cursors| <= MAX_CURSORS {
        return;
      }
      cursors := map k | k in cursors && !Expired(cursors[k], now) :: cursors[k];
      assert cursors == Unexpired(old(cursors), now);
      while |cursors| > MAX_CURSORS
        invariant Valid()
        invariant DropOldest(cursors, now) == DropOldest(Unexpired(old(cursors), now), now)
        decreases |cursors|
      {
        var k := FindOldest(now);
        OldestIsUnique(cursors, k, now);
        assert (cursors - {k}).Keys == cursors.Keys - {k};
        cursors := cursors - {k};
      }
    }

    method FindOldest(now: int) returns (k: CursorId)
      requires Valid() && cursors != map[]
      ensures IsOldest(k, cursors, now)
    {
      k :| k in cursors;
      var todo := cursors.Keys - {k};
      while todo != {}
        invariant todo <= cursors.Keys && k in cursors
        invariant forall j <- cursors :: j in todo || Older(cursors[k], cursors[j], now)
        decreases todo
      {
        var j :| j in todo;
        todo := todo - {j};
        if !Older(cursors[k], cursors[j], now) {
          k := j;
        }
      }
    }

    method Resolve(id: CursorId, principal: string, now: int) returns (found: Option<Cursor>)
      requires Valid()
      modifies this`cursors
      ensures Valid()
      ensures View() == AfterResolve(old(View()), id, principal, now)
      ensures found == if Presentable(old(View()), id, principal, now) then Some(old(cursors)[id]) else None
    {
      if id !in cursors {
        assert cursors - {id} == cursors;
        return None;
      }
      var cursor := cursors[id];
      if cursor.expiresAt.Some? && now >= cursor.expiresAt.value {
        cursors := cursors - {id};
        return None;
      }
      if cursor.principal.Some? && cursor.principal.value != principal {
        cursors := cursors - {id};
        return None;
      }
      return Some(cursor);
    }

    /** Consume-on-use: the old handle goes and its successor keeps subscription, generation and owner. */
    method Consume(cursor: Cursor, newOffset: nat, ttl: int, now: int) returns (successor: Cursor)
      requires Valid()
      modifies this
      ensures Valid()
      ensures var before := Forget(old(View()), cursor.id);
              && successor == Draw(before, cursor.subscription, cursor.generation, newOffset, cursor.principal, ttl,
                                   now)
              && View() == Insert(before, successor, now)
    {
      cursors := cursors - {cursor.id};
      successor := Create(cursor.subscription, cursor.generation, newOffset, cursor.principal, ttl, now);
    }

    method InvalidateSubscription(subscription: nat)
      requires Valid()
      modifies this`cursors
      ensures Valid()
      ensures View() == Invalidate(old(View()), subscription)
    {
      cursors := map k | k in cursors && cursors[k].subscription != subscription :: cursors[k];
    }
  }

  lemma OldestIsUnique(entries: map<CursorId, Cursor>, k: CursorId, now: int)
    requires forall j <- entries :: entries[j].id == j
    requires IsOldest(k, entries, now)
    requires |entries| > MAX_CURSORS
    ensures DropOldest(entries, now) == DropOldest(entries - {k}, now)
  {
    OldestExists(entries, now);
    var m :| IsOldest(m, entries, now) && DropOldest(entries, now) == DropOldest(entries - {m}, now);
    assert Older(entries[k], entries[m], now) && Older(entries[m], entries[k], now);
  }
}
