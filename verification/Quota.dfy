/** The quota engine (policy/quota.py): counters that are cleared each period, and one window of times per principal. */
module Quota {
  import opened Wrappers
  import opened QuotaPolicy

  /** A dict of counters. */
  type Counts = seq<(string, nat)>

  function CountOf(counts: Counts, key: string): nat {
    if counts == [] then 0 else if counts[0].0 == key then counts[0].1 else CountOf(counts[1..], key)
  }

  function Total(counts: Counts): nat {
    if counts == [] then 0 else counts[0].1 + Total(counts[1..])
  }

  function Bump(counts: Counts, key: string): Counts {
    if counts == [] then [(key, 1)]
    else if counts[0].0 == key then [(key, counts[0].1 + 1)] + counts[1..]
    else [counts[0]] + Bump(counts[1..], key)
  }

  lemma {:induction false} BumpCounts(counts: Counts, key: string)
    ensures Total(Bump(counts, key)) == Total(counts) + 1
    ensures forall k :: CountOf(Bump(counts, key), k) == CountOf(counts, k) + if k == key then 1 else 0
  {
    if counts != [] {
      BumpCounts(counts[1..], key);
    }
  }

  function Keyed(h: History, key: string): nat {
    if h == [] then 0 else Keyed(h[..|h| - 1], key) + if h[|h| - 1].key == key then 1 else 0
  }

  lemma {:induction false} NoneOnLaterDay(h: History, principal: string, day: int)
    requires forall a <- h :: a.at.day < day
    ensures OnDay(h, principal, day) == 0
  {
    if h != [] {
      assert h[|h| - 1] in h;
      NoneOnLaterDay(h[..|h| - 1], principal, day);
    }
  }

  lemma {:induction false} NoneInLaterMonth(h: History, principal: string, month: int)
    requires forall a <- h :: a.at.month < month
    ensures InMonth(h, principal, month) == 0
  {
    if h != [] {
      assert h[|h| - 1] in h;
      NoneInLaterMonth(h[..|h| - 1], principal, month);
    }
  }

  function Get<T>(m: map<string, seq<T>>, key: string): seq<T> {
    if key in m then m[key] else []
  }

  /** The window is the end of the times; what was dropped from it is too old to count again. */
  ghost predicate EndOf(window: seq<real>, times: seq<real>, cutoff: real) {
    && |window| <= |times| && window == times[|times| - |window|..]
    && forall i | 0 <= i < |times| - |window| :: times[i] < cutoff
  }

  ghost predicate DaysAgree(byPrincipal: map<string, Counts>, h: History, day: int) {
    forall p: string :: Total(Get(byPrincipal, p)) == OnDay(h, p, day)
  }

  ghost predicate MonthsAgree(byPrincipal: map<string, Counts>, h: History, month: int) {
    forall p: string :: Total(Get(byPrincipal, p)) == InMonth(h, p, month)
  }

  ghost predicate OperationsAgree(counts: Counts, h: History) {
    forall key: string :: CountOf(counts, key) == Keyed(h, key)
  }

  ghost predicate WindowsAgree(windows: map<string, seq<real>>, h: History, cutoff: real) {
    forall p: string :: EndOf(Get(windows, p), Times(h, p), cutoff)
  }

  lemma NewDay(h: History, day: int)
    requires forall a <- h :: a.at.day < day
    ensures DaysAgree(map[], h, day)
  {
    forall p: string ensures OnDay(h, p, day) == 0 {
      NoneOnLaterDay(h, p, day);
    }
  }

  lemma NewMonth(h: History, month: int)
    requires forall a <- h :: a.at.month < month
    ensures MonthsAgree(map[], h, month)
  {
    forall p: string ensures InMonth(h, p, month) == 0 {
      NoneInLaterMonth(h, p, month);
    }
  }

  lemma DaysBumped(m: map<string, Counts>, h: History, a: Attempt)
    requires DaysAgree(m, h, a.at.day)
    ensures DaysAgree(m[a.principal := Bump(Get(m, a.principal), a.key)], h + [a], a.at.day)
  {
    hide OnDay, Total, Bump;
    BumpCounts(Get(m, a.principal), a.key);
    forall p: string ensures OnDay(h + [a], p, a.at.day) == OnDay(h, p, a.at.day) + if a.principal == p then 1 else 0 {
      HistorySnoc(h, a, p);
    }
  }

  lemma MonthsBumped(m: map<string, Counts>, h: History, a: Attempt)
    requires MonthsAgree(m, h, a.at.month)
    ensures MonthsAgree(m[a.principal := Bump(Get(m, a.principal), a.key)], h + [a], a.at.month)
  {
    hide InMonth, Total, Bump;
    BumpCounts(Get(m, a.principal), a.key);
    forall p: string
      ensures InMonth(h + [a], p, a.at.month) == InMonth(h, p, a.at.month) + if a.principal == p then 1 else 0 {
      HistorySnoc(h, a, p);
    }
  }

  lemma OperationsBumped(counts: Counts, h: History, a: Attempt)
    requires OperationsAgree(counts, h)
    ensures OperationsAgree(Bump(counts, a.key), h + [a])
  {
    BumpCounts(counts, a.key);
    assert (h + [a])[..|h|] == h;
  }

  lemma WindowExtended(m: map<string, seq<real>>, h: History, a: Attempt, cutoff: real)
    requires WindowsAgree(m, h, cutoff)
    ensures WindowsAgree(m[a.principal := Get(m, a.principal) + [a.at.seconds]], h + [a], cutoff)
  {
    hide Times;
    forall p: string
      ensures Times(h + [a], p) == if a.principal == p then Times(h, p) + [a.at.seconds] else Times(h, p) {
      HistorySnoc(h, a, p);
    }
  }

  lemma WindowsLater(m: map<string, seq<real>>, h: History, cutoff: real, cutoff': real)
    requires WindowsAgree(m, h, cutoff) && cutoff <= cutoff'
    ensures WindowsAgree(m, h, cutoff')
  {
    hide Times;
    forall p: string ensures EndOf(Get(m, p), Times(h, p), cutoff') {
      assert EndOf(Get(m, p), Times(h, p), cutoff);
    }
  }

  lemma WindowTrimmed(m: map<string, seq<real>>, h: History, cutoff: real, principal: string, window: seq<real>)
    requires WindowsAgree(m, h, cutoff) && EndOf(window, Times(h, principal), cutoff)
    ensures WindowsAgree(m[principal := window], h, cutoff)
  {
    hide Times;
  }

  /** Once nothing old is left at the front, the length of the window is the number of recent admissions. */
  lemma WindowCounts(window: seq<real>, times: seq<real>, cutoff: real)
    requires Sorted(times) && EndOf(window, times, cutoff) && (window == [] || window[0] >= cutoff)
    ensures |window| == CountFrom(times, cutoff)
  {
    CountFromCut(times, cutoff, |times| - |window|);
  }

  class QuotaEngine {
    const budgets: Budgets
    var byPrincipalDay: map<string, Counts>
    var byPrincipalMonth: map<string, Counts>
    var byServiceOperation: Counts
    var rateWindows: map<string, seq<real>>
    var dayKey: int
    var monthKey: int
    ghost var attempts: seq<Attempt>
    ghost var history: History
    ghost var latest: Instant

    /** The history is what the policy admits of the attempts made so far. */
    ghost predicate Valid()
      reads this
    {
      && Agreeing()
      && InOrder(attempts) && NoneAfter(attempts, latest)
      && history == Admissions(budgets, attempts)
    }

    ghost predicate Agreeing()
      reads `dayKey, `monthKey, `byPrincipalDay, `byPrincipalMonth, `byServiceOperation, `rateWindows, `history, `latest
    {
      && InOrder(history) && NoneAfter(history, latest)
      && dayKey == latest.day && monthKey == latest.month
      && DaysAgree(byPrincipalDay, history, dayKey)
      && MonthsAgree(byPrincipalMonth, history, monthKey)
      && OperationsAgree(byServiceOperation, history)
      && WindowsAgree(rateWindows, history, latest.seconds - RATE_WINDOW_SECONDS)
    }

    constructor (budgets: Budgets, now: Instant)
      ensures Valid() && this.budgets == budgets && attempts == [] && latest == now
    {
      this.budgets := budgets;
      byPrincipalDay, byPrincipalMonth, byServiceOperation, rateWindows := map[], map[], [], map[];
      dayKey, monthKey := now.day, now.month;
      attempts, history, latest := [], [], now;
    }

    method RollPeriod(now: Instant)
      requires Agreeing() && NotAfter(latest, now)
      modifies this`dayKey, this`monthKey, this`byPrincipalDay, this`byPrincipalMonth, this`latest
      ensures Agreeing() && latest == now
    {
      hide DaysAgree, MonthsAgree, OperationsAgree, WindowsAgree;
      if now.day != dayKey {
        NewDay(history, now.day);
        dayKey := now.day;
        byPrincipalDay := map[];
      }
      if now.month != monthKey {
        NewMonth(history, now.month);
        monthKey := now.month;
        byPrincipalMonth := map[];
      }
      WindowsLater(rateWindows, history, latest.seconds - RATE_WINDOW_SECONDS, now.seconds - RATE_WINDOW_SECONDS);
      latest := now;
    }

    /** Old times are popped from the front while there are any. */
    method DropOld(window: seq<real>, cutoff: real, ghost times: seq<real>) returns (left: seq<real>)
      requires EndOf(window, times, cutoff)
      ensures EndOf(left, times, cutoff) && (left == [] || left[0] >= cutoff)
    {
      left := window;
      while left != [] && left[0] < cutoff
        invariant EndOf(left, times, cutoff)
        decreases |left|
      {
        left := left[1..];
      }
    }

    method TrimWindow(principal: string, now: Instant) returns (window: seq<real>)
      requires Agreeing() && now == latest
      modifies this`rateWindows
      ensures Agreeing() && window == Get(rateWindows, principal)
      ensures |window| == CountFrom(Times(history, principal), now.seconds - RATE_WINDOW_SECONDS)
    {
      hide DaysAgree, MonthsAgree, OperationsAgree, Times, CountFrom, EndOf;
      ghost var times := Times(history, principal);
      var cutoff := now.seconds - RATE_WINDOW_SECONDS;
      window := DropOld(Get(rateWindows, principal), cutoff, times);
      TimesAreSorted(history, principal, latest);
      WindowCounts(window, times, cutoff);
      WindowTrimmed(rateWindows, history, cutoff, principal, window);
      hide WindowsAgree;
      rateWindows := rateWindows[principal := window];
    }

    method Record(principal: string, key: string, now: Instant)
      requires Agreeing() && now == latest
      modifies this`rateWindows, this`byPrincipalDay, this`byPrincipalMonth, this`byServiceOperation, this`history
      ensures Agreeing() && history == old(history) + [Attempt(principal, key, now)] && latest == old(latest)
    {
      hide DaysAgree, MonthsAgree, OperationsAgree, WindowsAgree;
      ghost var a := Attempt(principal, key, now);
      DaysBumped(byPrincipalDay, history, a);
      MonthsBumped(byPrincipalMonth, history, a);
      OperationsBumped(byServiceOperation, history, a);
      WindowExtended(rateWindows, history, a, now.seconds - RATE_WINDOW_SECONDS);
      rateWindows := rateWindows[principal := Get(rateWindows, principal) + [now.seconds]];
      byPrincipalDay := byPrincipalDay[principal := Bump(Get(byPrincipalDay, principal), key)];
      byPrincipalMonth := byPrincipalMonth[principal := Bump(Get(byPrincipalMonth, principal), key)];
      byServiceOperation := Bump(byServiceOperation, key);
      history := history + [a];
    }

    lemma TotalsAgree(principal: string)
      requires Agreeing()
      ensures Total(Get(byPrincipalDay, principal)) == OnDay(history, principal, latest.day)
      ensures Total(Get(byPrincipalMonth, principal)) == InMonth(history, principal, latest.month)
    {
      hide Total, OnDay, InMonth;
    }

    /** The engine decides what the policy decides on the whole history, and a refused request is not recorded. */
    method Decide(principal: string, service: string, operation: string, now: Instant) returns (r: Option<ErrorCode>)
      requires Agreeing() && NotAfter(latest, now)
      modifies this`dayKey, this`monthKey, this`rateWindows, this`byPrincipalDay, this`byPrincipalMonth,
               this`byServiceOperation, this`history, this`latest
      ensures Agreeing() && latest == now
      ensures r == Verdict(budgets, old(history), Attempt(principal, service + "|" + operation, now))
      ensures history ==
                if r.None? then old(history) + [Attempt(principal, service + "|" + operation, now)] else old(history)
    {
      hide Agreeing, Total, OnDay, InMonth, CountFrom, Times;
      RollPeriod(now);
      TotalsAgree(principal);
      if Total(Get(byPrincipalDay, principal)) >= budgets.daily {
        return Some(LICENSE_BUDGET_EXCEEDED);
      }
      if Total(Get(byPrincipalMonth, principal)) >= budgets.monthly {
        return Some(LICENSE_BUDGET_EXCEEDED);
      }
      var window := TrimWindow(principal, now);
      if |window| >= RATE_MAX_PER_WINDOW {
        return Some(RATE_LIMITED);
      }
      Record(principal, service + "|" + operation, now);
      return None;
    }

    /** Whatever attempts are made, budgets and rate are kept over the whole history. */
    method AdmitRequest(principal: string, service: string, operation: string, now: Instant)
      returns (r: Option<ErrorCode>)
      requires Valid() && NotAfter(latest, now)
      modifies this
      ensures Valid() && latest == now && attempts == old(attempts) + [Attempt(principal, service + "|" + operation,
                                                                               now)]
      ensures r == Verdict(budgets, Admissions(budgets, old(attempts)),
                           Attempt(principal, service + "|" + operation, now))
      ensures WithinPolicy(budgets, history)
    {
      hide Agreeing, Verdict, WithinPolicy, Admissions, InOrder, NoneAfter;
      ghost var a := Attempt(principal, service + "|" + operation, now);
      r := Decide(principal, service, operation, now);
      AttemptSnoc(budgets, attempts, old(latest), a);
      attempts := attempts + [a];
      AdmissionsWithinPolicy(budgets, attempts);
    }
  }
}
