/**
 The unbounded event log of one generation of a group, and what the group's bounded structures say
 about it. The registry never stores the log: it is the reference the buffer, the counters and the
 latest view are measured against.
 */
module SubscriptionLog {
  import opened SubscriptionModel

  /** A data event as it was routed: the item it reached and the native event. */
  datatype LogEntry = LogEntry(item: ItemId, event: Event)

  type Log = seq<LogEntry>

  /** How many events of this item the log holds. */
  ghost function Count(log: Log, id: ItemId): nat {
    if log == [] then 0
    else Count(log[..|log| - 1], id) + (if log[|log| - 1].item == id then 1 else 0)
  }

  /** Left-to-right merge of all the payloads of this item, evicted ones included. */
  ghost function Merge(log: Log, id: ItemId): Payload {
    if log == [] then map[]
    else
      var last := log[|log| - 1];
      if last.item == id then Merge(log[..|log| - 1], id) + last.event.payload else Merge(log[..|log| - 1], id)
  }

  /** The buffered form of the event at position p: its sequence number is its rank among its item's events. */
  ghost function Stamp(log: Log, p: nat): BufferedEvent
    requires p < |log|
  {
    var e := log[p];
    BufferedEvent(e.item, Count(log[..p + 1], e.item), e.event.receivedAt, e.event.messageType, e.event.payload)
  }

  function Min(a: int, b: int): int {
    if a < b then a else b
  }

  function Max(a: int, b: int): int {
    if a < b then b else a
  }

  /** The buffer is the last min(total, max) events of the log. */
  ghost predicate Window(buffer: seq<BufferedEvent>, log: Log, max: nat) {
    && |buffer| == Min(|log|, max)
    && forall i | 0 <= i < |buffer| :: buffer[i] == Stamp(log, |log| - |buffer| + i)
  }

  ghost predicate Views(items: seq<Item>, latest: map<ItemId, Payload>, log: Log) {
    && (forall item <- items :: item.sequence == Count(log, item.id))
    && (forall e <- log :: e.item in Ids(items) && e.item in latest)
    && (forall id <- latest :: Count(log, id) > 0 && latest[id] == Merge(log, id))
  }

  /** Every structure the group keeps about its events agrees with the log. */
  ghost predicate Agrees(g: Group, log: Log) {
    && g.maxEvents >= 1
    && Distinct(g.items)
    && g.total == |log|
    && Window(g.buffer, log, g.maxEvents)
    && Views(g.items, g.latest, log)
  }

  function SumSequences(items: seq<Item>): nat {
    if items == [] then 0 else SumSequences(items[..|items| - 1]) + items[|items| - 1].sequence
  }

  lemma CountAppend(log: Log, e: LogEntry, id: ItemId)
    ensures Count(log + [e], id) == Count(log, id) + (if e.item == id then 1 else 0)
    ensures Merge(log + [e], id) == if e.item == id then Merge(log, id) + e.event.payload else Merge(log, id)
  {
    assert (log + [e])[..|log|] == log;
  }

  lemma {:induction false} CountZero(log: Log, id: ItemId)
    ensures Count(log, id) == 0 <==> forall e <- log :: e.item != id
    ensures Count(log, id) == 0 ==> Merge(log, id) == map[]
  {
    if log != [] {
      CountZero(log[..|log| - 1], id);
      assert log == log[..|log| - 1] + [log[|log| - 1]];
    }
  }

  lemma StampPrefix(log: Log, longer: Log, p: nat)
    requires p < |log| && log <= longer
    ensures Stamp(longer, p) == Stamp(log, p)
  {
    assert longer[..p + 1] == log[..p + 1];
  }

  lemma {:induction false} EmptyAgrees(g: Group)
    requires g.maxEvents >= 1 && Distinct(g.items) && g.total == 0 && g.buffer == [] && g.latest == map[]
    requires forall item <- g.items :: item.sequence == 0
    ensures Agrees(g, [])
  {
    forall item <- g.items ensures item.sequence == Count([], item.id) {
    }
  }

  /** Delivering a data event keeps every structure in agreement with the extended log. */
  lemma DeliverAgrees(g: Group, log: Log, i: nat, event: Event)
    requires Agrees(g, log) && i < |g.items| && event.signal.Data?
    ensures Agrees(Deliver(g, i, event), log + [LogEntry(g.items[i].id, event)])
    ensures var g' := Deliver(g, i, event);
            g'.dropped == g.dropped + (if |log| >= g.maxEvents then 1 else 0)
  {
    var e := LogEntry(g.items[i].id, event);
    DeliverWindow(g, log, i, event);
    DeliverViews(g, log, i, event);
  }

  lemma DeliverWindow(g: Group, log: Log, i: nat, event: Event)
    requires Agrees(g, log) && i < |g.items| && event.signal.Data?
    ensures Window(Deliver(g, i, event).buffer, log + [LogEntry(g.items[i].id, event)], g.maxEvents)
  {
    assert g.items[i] in g.items;
    var e := LogEntry(g.items[i].id, event);
    var entry := BufferedEvent(e.item, Count(log, e.item) + 1, event.receivedAt, event.messageType, event.payload);
    StampLast(log, e);
    SlideWindow(g.buffer, log, g.maxEvents, e, entry);
  }

  lemma StampLast(log: Log, e: LogEntry)
    ensures Stamp(log + [e], |log|) ==
              BufferedEvent(e.item, Count(log, e.item) + 1, e.event.receivedAt, e.event.messageType, e.event.payload)
  {
    assert (log + [e])[..|log| + 1] == log + [e];
    CountAppend(log, e, e.item);
  }

  /** Appending to the log and sliding the window keeps the window. */
  lemma SlideWindow(buffer: seq<BufferedEvent>, log: Log, max: nat, e: LogEntry, entry: BufferedEvent)
    requires max >= 1 && Window(buffer, log, max) && entry == Stamp(log + [e], |log|)
    ensures Window((if |buffer| >= max then buffer[1..] else buffer) + [entry], log + [e], max)
  {
    hide Stamp;
    var cut := if |buffer| >= max then 1 else 0;
    var buffer' := buffer[cut..] + [entry];
    forall j | 0 <= j < |buffer'| ensures buffer'[j] == Stamp(log + [e], |log| + 1 - |buffer'| + j) {
      if j < |buffer'| - 1 {
        assert buffer'[j] == buffer[cut + j];
        StampPrefix(log, log + [e], |log| + 1 - |buffer'| + j);
      }
    }
  }

  lemma DeliverViews(g: Group, log: Log, i: nat, event: Event)
    requires Agrees(g, log) && i < |g.items| && event.signal.Data?
    ensures var g' := Deliver(g, i, event);
            Distinct(g'.items) && Views(g'.items, g'.latest, log + [LogEntry(g.items[i].id, event)])
  {
    var e := LogEntry(g.items[i].id, event);
    var log' := log + [e];
    var g' := Deliver(g, i, event);
    SameIds(g.items, g'.items);
    forall item <- g'.items ensures item.sequence == Count(log', item.id) {
      CountAppend(log, e, item.id);
      var j :| 0 <= j < |g'.items| && g'.items[j] == item;
      assert g.items[j] in g.items;
      if j != i {
        assert item.id != e.item;
      }
    }
    forall id <- g'.latest ensures Count(log', id) > 0 && g'.latest[id] == Merge(log', id) {
      CountAppend(log, e, id);
      CountZero(log, id);
    }
  }

  lemma SameIds(items: seq<Item>, items': seq<Item>)
    requires |items'| == |items| && forall i | 0 <= i < |items| :: items'[i].id == items[i].id
    ensures Ids(items') == Ids(items)
    ensures Distinct(items) ==> Distinct(items')
  {
    forall id ensures id in Ids(items') <==> id in Ids(items) {
      if id in Ids(items') {
        var i :| 0 <= i < |items'| && items'[i].id == id;
        assert items[i] in items;
      }
      if id in Ids(items) {
        var i :| 0 <= i < |items| && items[i].id == id;
        assert items'[i] in items';
      }
    }
  }

  /** A change of statuses, waiters or flags leaves the agreement as it was. */
  lemma RelabelAgrees(g: Group, g': Group, log: Log)
    requires Agrees(g, log)
    requires g'.maxEvents == g.maxEvents && g'.total == g.total && g'.buffer == g.buffer && g'.latest == g.latest
    requires |g'.items| == |g.items|
    requires forall i | 0 <= i < |g.items| ::
               g'.items[i].id == g.items[i].id && g'.items[i].sequence == g.items[i].sequence
    ensures Agrees(g', log)
  {
    SameIds(g.items, g'.items);
    forall item <- g'.items ensures item.sequence == Count(log, item.id) {
      var i :| 0 <= i < |g'.items| && g'.items[i] == item;
      assert g.items[i] in g.items;
    }
  }

  /** The item sequences add up to the number of events of the generation. */
  lemma {:induction false} SequencesSumToTotal(g: Group, log: Log)
    requires Agrees(g, log)
    ensures SumSequences(g.items) == g.total
  {
    SumCounts(g.items, log);
    assert Only(log, Ids(g.items)) == log by { OnlyAll(log, Ids(g.items)); }
  }

  ghost function Only(log: Log, ids: set<ItemId>): Log {
    if log == [] then []
    else
      var rest := Only(log[..|log| - 1], ids);
      if log[|log| - 1].item in ids then rest + [log[|log| - 1]] else rest
  }

  lemma {:induction false} OnlyAll(log: Log, ids: set<ItemId>)
    requires forall e <- log :: e.item in ids
    ensures Only(log, ids) == log
  {
    if log != [] {
      assert log == log[..|log| - 1] + [log[|log| - 1]];
      OnlyAll(log[..|log| - 1], ids);
    }
  }

  lemma {:induction false} SumCounts(items: seq<Item>, log: Log)
    requires Distinct(items) && forall item <- items :: item.sequence == Count(log, item.id)
    ensures SumSequences(items) == |Only(log, Ids(items))|
  {
    if items == [] {
      assert Ids(items) == {};
      OnlyNone(log);
    } else {
      var last := items[|items| - 1];
      var init := items[..|items| - 1];
      assert items == init + [last];
      SumCounts(init, log);
      assert Ids(items) == Ids(init) + {last.id};
      assert last.id !in Ids(init);
      OnlyOneMore(log, Ids(init), last.id);
    }
  }

  lemma {:induction false} OnlyNone(log: Log)
    ensures Only(log, {}) == []
  {
    if log != [] {
      OnlyNone(log[..|log| - 1]);
    }
  }

  lemma {:induction false} OnlyOneMore(log: Log, ids: set<ItemId>, id: ItemId)
    requires id !in ids
    ensures |Only(log, ids + {id})| == |Only(log, ids)| + Count(log, id)
  {
    if log != [] {
      OnlyOneMore(log[..|log| - 1], ids, id);
    }
  }
}
