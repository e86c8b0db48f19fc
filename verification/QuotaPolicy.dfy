/**
 What the quota engine decides, as functions of the full admission history (policy/quota.py).
 The engine itself keeps counters and a trimmed window only; that it decides the same is proved in Quota.
 */
module QuotaPolicy {
  import opened Wrappers

  const RATE_WINDOW_SECONDS: real := 60.0
  const RATE_MAX_PER_WINDOW: nat := 120

  /** A reading of the clock: its seconds, and the day and month they fall in. */
  datatype Instant = Instant(seconds: real, day: int, month: int)

  datatype Budgets = Budgets(daily: int, monthly: int)

  datatype Attempt = Attempt(principal: string, key: string, at: Instant)

  type History = seq<Attempt>

  predicate NotAfter(a: Instant, b: Instant) {
    a.seconds <= b.seconds && a.day <= b.day && a.month <= b.month
  }

  /** The clock did not run backwards. */
  ghost predicate InOrder(h: History) {
    forall i, j | 0 <= i <= j < |h| :: NotAfter(h[i].at, h[j].at)
  }

  function OnDay(h: History, principal: string, day: int): nat {
    if h == [] then 0
    else
      var last := h[|h| - 1];
      OnDay(h[..|h| - 1], principal, day) + if last.principal == principal && last.at.day == day then 1 else 0
  }

  function InMonth(h: History, principal: string, month: int): nat {
    if h == [] then 0
    else
      var last := h[|h| - 1];
      InMonth(h[..|h| - 1], principal, month) + if last.principal == principal && last.at.month == month then 1 else 0
  }

  function Times(h: History, principal: string): seq<real> {
    if h == [] then []
    else
      var last := h[|h| - 1];
      Times(h[..|h| - 1], principal) + if last.principal == principal then [last.at.seconds] else []
  }

  function CountFrom(times: seq<real>, cutoff: real): nat {
    if times == [] then 0
    else CountFrom(times[..|times| - 1], cutoff) + if times[|times| - 1] >= cutoff then 1 else 0
  }

  /** Budgets are checked before the rate, and only admitted requests count. */
  function Verdict(budgets: Budgets, h: History, a: Attempt): Option<ErrorCode> {
    if OnDay(h, a.principal, a.at.day) >= budgets.daily then Some(LICENSE_BUDGET_EXCEEDED)
    else if InMonth(h, a.principal, a.at.month) >= budgets.monthly then Some(LICENSE_BUDGET_EXCEEDED)
    else if CountFrom(Times(h, a.principal), a.at.seconds - RATE_WINDOW_SECONDS) >= RATE_MAX_PER_WINDOW then
      Some(RATE_LIMITED)
    else None
  }

  /** The admissions that a run of attempts leads to. */
  function Admissions(budgets: Budgets, attempts: seq<Attempt>): History {
    if attempts == [] then []
    else
      var h := Admissions(budgets, attempts[..|attempts| - 1]);
      var a := attempts[|attempts| - 1];
      if Verdict(budgets, h, a).None? then h + [a] else h
  }

  ghost predicate Sorted(times: seq<real>) {
    forall i, j | 0 <= i <= j < |times| :: times[i] <= times[j]
  }

  ghost predicate NoneAfter(h: History, at: Instant) {
    forall a <- h :: NotAfter(a.at, at)
  }

  lemma {:induction false} TimesAreSorted(h: History, principal: string, at: Instant)
    requires InOrder(h) && NoneAfter(h, at)
    ensures Sorted(Times(h, principal)) && forall t <- Times(h, principal) :: t <= at.seconds
  {
    if h != [] {
      var init := h[..|h| - 1];
      TimesAreSorted(init, principal, h[|h| - 1].at);
      forall i | 0 <= i < |Times(init, principal)| ensures Times(init, principal)[i] <= h[|h| - 1].at.seconds {
        assert Times(init, principal)[i] in Times(init, principal);
      }
      assert h[|h| - 1] in h;
    }
  }

  /** In a sorted sequence, what is counted is what is left after dropping the old times. */
  lemma {:induction false} CountFromCut(times: seq<real>, cutoff: real, k: nat)
    requires k <= |times|
    requires forall i | 0 <= i < k :: times[i] < cutoff
    requires forall i | k <= i < |times| :: times[i] >= cutoff
    ensures CountFrom(times, cutoff) == |times| - k
    decreases |times|
  {
    if k < |times| {
      CountFromCut(times[..|times| - 1], cutoff, k);
    } else if times != [] {
      CountFromCut(times[..|times| - 1], cutoff, k - 1);
    }
  }

  lemma {:induction false} CountFromAtLeast(times: seq<real>, cutoff: real, k: nat)
    requires k <= |times| && forall i | k <= i < |times| :: times[i] >= cutoff
    ensures CountFrom(times, cutoff) >= |times| - k
    decreases |times|
  {
    if k < |times| {
      CountFromAtLeast(times[..|times| - 1], cutoff, k);
    }
  }

  /** No principal is ever admitted more often than the budget of a day or of a month, or than the rate allows. */
  ghost predicate WithinPolicy(budgets: Budgets, h: History) {
    forall principal: string :: PrincipalWithin(budgets, h, principal)
  }

  ghost predicate PrincipalWithin(budgets: Budgets, h: History, principal: string) {
    && (forall day: int :: OnDay(h, principal, day) == 0 || OnDay(h, principal, day) <= budgets.daily)
    && (forall month: int :: InMonth(h, principal, month) == 0 || InMonth(h, principal, month) <= budgets.monthly)
    && Spread(Times(h, principal))
  }

  /** Each admission comes more than the window after the one that is 120 places before it. */
  ghost predicate Spread(times: seq<real>) {
    forall i: nat, j: nat | i < j < |times| && j == i + RATE_MAX_PER_WINDOW :: times[j] > times[i] + RATE_WINDOW_SECONDS
  }

  lemma SpreadOnce(times: seq<real>, now: real)
    requires Spread(times) && Sorted(times)
    requires CountFrom(times, now - RATE_WINDOW_SECONDS) < RATE_MAX_PER_WINDOW
    ensures Spread(times + [now])
  {
    var i := |times| - RATE_MAX_PER_WINDOW;
    if i >= 0 && times[i] >= now - RATE_WINDOW_SECONDS {
      CountFromAtLeast(times, now - RATE_WINDOW_SECONDS, i);
    }
  }

  /** One more admission, as every view of the history sees it. */
  lemma HistorySnoc(h: History, a: Attempt, principal: string)
    ensures Times(h + [a], principal) == if a.principal == principal then Times(h, principal) + [a.at.seconds]
                                         else Times(h, principal)
    ensures forall day ::
              OnDay(h + [a], principal, day) == OnDay(h, principal, day) + if a.principal == principal
                && a.at.day == day then 1 else 0
    ensures forall month ::
              InMonth(h + [a], principal, month) ==
                InMonth(h, principal, month) + if a.principal == principal && a.at.month == month then 1 else 0
  {
    assert (h + [a])[..|h|] == h;
  }

  lemma AdmissionStaysWithin(budgets: Budgets, h: History, a: Attempt, principal: string)
    requires InOrder(h) && NoneAfter(h, a.at) && PrincipalWithin(budgets, h, principal) && Verdict(budgets, h, a).None?
    ensures PrincipalWithin(budgets, h + [a], principal)
  {
    hide OnDay, InMonth, Times, Spread, CountFrom;
    HistorySnoc(h, a, principal);
    if a.principal == principal {
      TimesAreSorted(h, principal, a.at);
      SpreadOnce(Times(h, principal), a.at.seconds);
    }
  }

  lemma AttemptSnoc(budgets: Budgets, attempts: seq<Attempt>, latest: Instant, a: Attempt)
    requires InOrder(attempts) && NoneAfter(attempts, latest) && NotAfter(latest, a.at)
    ensures InOrder(attempts + [a]) && NoneAfter(attempts + [a], a.at)
    ensures var h := Admissions(budgets, attempts);
            Admissions(budgets, attempts + [a]) == if Verdict(budgets, h, a).None? then h + [a] else h
  {
    hide Verdict;
    assert (attempts + [a])[..|attempts|] == attempts;
    forall i | 0 <= i < |attempts| ensures NotAfter(attempts[i].at, a.at) {
      assert attempts[i] in attempts;
    }
  }

  /** Over every run of attempts, with any clock that does not run backwards. */
  lemma {:induction false} AdmissionsWithinPolicy(budgets: Budgets, attempts: seq<Attempt>)
    requires InOrder(attempts)
    ensures WithinPolicy(budgets, Admissions(budgets, attempts))
    ensures InOrder(Admissions(budgets, attempts))
    ensures forall a <- Admissions(budgets, attempts) :: a in attempts
  {
    if attempts != [] {
      var init, a := attempts[..|attempts| - 1], attempts[|attempts| - 1];
      AdmissionsWithinPolicy(budgets, init);
      var h := Admissions(budgets, init);
      forall b <- h ensures NotAfter(b.at, a.at) {
        var i :| 0 <= i < |init| && init[i] == b;
        assert attempts[i] == b;
      }
      if Verdict(budgets, h, a).None? {
        forall principal: string ensures PrincipalWithin(budgets, h + [a], principal) {
          AdmissionStaysWithin(budgets, h, a, principal);
        }
      }
    }
  }

  /** A refused attempt leaves no trace: later verdicts are those of a run without it. */
  lemma {:induction false} RefusedConsumesNothing(budgets: Budgets, before: seq<Attempt>, refused: Attempt,
                                                  later: seq<Attempt>)
    requires Verdict(budgets, Admissions(budgets, before), refused).Some?
    ensures Admissions(budgets, before + [refused] + later) == Admissions(budgets, before + later)
    decreases |later|
  {
    hide Verdict;
    var run := before + [refused] + later;
    if later == [] {
      assert run[..|run| - 1] == before && before + later == before;
    } else {
      var init := later[..|later| - 1];
      RefusedConsumesNothing(budgets, before, refused, init);
      assert run[..|run| - 1] == before + [refused] + init;
      assert (before + later)[..|before + later| - 1] == before + init;
    }
  }
}
