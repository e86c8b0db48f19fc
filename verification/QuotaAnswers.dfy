/** What an attempt is answered, said of the attempts before it that were admitted. */
module QuotaAnswers {
  import opened Wrappers
  import opened QuotaPolicy

  /** The attempts of one principal that count against a budget or against the rate. */
  datatype Counting =
    | InDay(who: string, day: int)
    | InMonthOf(who: string, month: int)
    | Since(who: string, seconds: real)
  {
    predicate Has(a: Attempt) {
      && a.principal == who
      && match this
         case InDay(_, day) => a.at.day == day
         case InMonthOf(_, month) => a.at.month == month
         case Since(_, seconds) => a.at.seconds >= seconds
    }
  }

  /** The answer to the i-th of a run of attempts. */
  function Answer(budgets: Budgets, attempts: seq<Attempt>, i: nat): Option<ErrorCode>
    requires i < |attempts|
  {
    Verdict(budgets, Admissions(budgets, attempts[..i]), attempts[i])
  }

  /** The attempts before the n-th that were admitted, of those that count. */
  ghost function Before(budgets: Budgets, attempts: seq<Attempt>, n: nat, counts: Counting): set<nat>
    requires n <= |attempts|
  {
    set i: nat | i < n && Answer(budgets, attempts, i).None? && counts.Has(attempts[i])
  }

  ghost function Tally(h: History, counts: Counting): nat {
    if h == [] then 0 else Tally(h[..|h| - 1], counts) + if counts.Has(h[|h| - 1]) then 1 else 0
  }

  lemma {:induction false} TallyIs(budgets: Budgets, attempts: seq<Attempt>, n: nat, counts: Counting)
    requires n <= |attempts|
    ensures Tally(Admissions(budgets, attempts[..n]), counts) == |Before(budgets, attempts, n, counts)|
  {
    hide Verdict;
    if n == 0 {
      assert Before(budgets, attempts, 0, counts) == {};
    } else {
      var h, a := Admissions(budgets, attempts[..n - 1]), attempts[n - 1];
      TallyIs(budgets, attempts, n - 1, counts);
      assert attempts[..n][..n - 1] == attempts[..n - 1];
      BeforeStep(budgets, attempts, n - 1, counts);
      if Answer(budgets, attempts, n - 1).None? {
        assert (h + [a])[..|h|] == h;
      }
    }
  }

  lemma BeforeStep(budgets: Budgets, attempts: seq<Attempt>, n: nat, counts: Counting)
    requires n < |attempts|
    ensures |Before(budgets, attempts, n + 1, counts)| ==
              |Before(budgets, attempts, n, counts)|
              + if Answer(budgets, attempts, n).None? && counts.Has(attempts[n]) then 1 else 0
  {
    hide Answer;
    var earlier := Before(budgets, attempts, n, counts);
    if Answer(budgets, attempts, n).None? && counts.Has(attempts[n]) {
      assert Before(budgets, attempts, n + 1, counts) == earlier + {n};
    } else {
      assert Before(budgets, attempts, n + 1, counts) == earlier;
    }
  }

  lemma {:induction false} TalliesAgree(h: History, who: string, day: int, month: int, cutoff: real)
    ensures OnDay(h, who, day) == Tally(h, InDay(who, day))
    ensures InMonth(h, who, month) == Tally(h, InMonthOf(who, month))
    ensures CountFrom(Times(h, who), cutoff) == Tally(h, Since(who, cutoff))
  {
    if h != [] {
      var init, last := h[..|h| - 1], h[|h| - 1];
      TalliesAgree(init, who, day, month, cutoff);
      var times := Times(init, who);
      if last.principal == who {
        assert Times(h, who) == times + [last.at.seconds];
        assert (times + [last.at.seconds])[..|times|] == times;
      } else {
        assert Times(h, who) == times;
      }
    }
  }

  /**
   An attempt is refused for its budget exactly when as many attempts of the same principal as the budget allows were
   admitted on the same day, or in the same month; then for its rate exactly when 120 were in the last 60 seconds; and
   otherwise it is admitted.
   */
  lemma AnswersExactly(budgets: Budgets, attempts: seq<Attempt>, n: nat)
    requires n < |attempts|
    ensures var a := attempts[n];
            var day := |Before(budgets, attempts, n, InDay(a.principal, a.at.day))|;
            var month := |Before(budgets, attempts, n, InMonthOf(a.principal, a.at.month))|;
            var minute := |Before(budgets, attempts, n, Since(a.principal, a.at.seconds - 60.0))|;
            Answer(budgets, attempts, n) ==
              if day >= budgets.daily || month >= budgets.monthly then Some(LICENSE_BUDGET_EXCEEDED)
              else if minute >= 120 then Some(RATE_LIMITED)
              else None
  {
    hide Before, Tally, Admissions;
    var a := attempts[n];
    TalliesAgree(Admissions(budgets, attempts[..n]), a.principal, a.at.day, a.at.month, a.at.seconds - 60.0);
    TallyIs(budgets, attempts, n, InDay(a.principal, a.at.day));
    TallyIs(budgets, attempts, n, InMonthOf(a.principal, a.at.month));
    TallyIs(budgets, attempts, n, Since(a.principal, a.at.seconds - 60.0));
  }
}
