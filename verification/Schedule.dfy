/** How many days the closing withdrawals of an account take: the estimate shown to the user
    against every schedule of withdrawals the daily limits admit. */
module Schedule {
  import opened Rows
  import opened Limits

  /** The estimate: ceil(ceil(balance / cap) / count). */
  function WithdrawDaysNeeded(balance: int, lim: DailyLimits): int {
    if balance <= 0 || lim.withdrawCap <= 0 || lim.withdrawCount <= 0 then 0
    else
      var withdrawals := (balance + lim.withdrawCap - 1) / lim.withdrawCap;
      (withdrawals + lim.withdrawCount - 1) / lim.withdrawCount
  }

  datatype Planned = Planned(day: Day, amount: nat)

  function Bump(c: Counters, p: Planned): Counters {
    var cur := ForDay(c, p.day);
    cur.(withdrawCount := cur.withdrawCount + 1, withdrawSum := cur.withdrawSum + p.amount)
  }

  /** Every withdrawal of the plan passes the daily check against the counters left by the ones before it. */
  predicate Admitted(lim: DailyLimits, c: Counters, plan: seq<Planned>)
    decreases |plan|
  {
    plan == [] ||
    (c.day <= plan[0].day && CheckDailyWithdraw(lim, c, plan[0].amount, plan[0].day).None? && Admitted(lim, Bump(c, plan[0]), plan[1..]))
  }

  /** Every withdrawal of the plan also meets the minimum, or empties what is left. */
  predicate MeetsMinimum(w: Wallet, plan: seq<Planned>)
    decreases |plan|
  {
    plan == [] ||
    (ValidWithdrawalAmount(plan[0].amount, Some(w), plan[0].amount == w.balance, false)
     && MeetsMinimum(w.(balance := w.balance - plan[0].amount), plan[1..]))
  }

  function Paid(plan: seq<Planned>): nat {
    if plan == [] then 0 else plan[0].amount + Paid(plan[1..])
  }

  ghost function DaysOf(plan: seq<Planned>): set<Day> {
    set p | p in plan :: p.day
  }

  ghost function OtherDays(plan: seq<Planned>, day: Day): nat {
    |DaysOf(plan) - {day}|
  }

  lemma DaysStep(plan: seq<Planned>, from: Day)
    requires plan != [] && forall p :: p in plan[1..] ==> plan[0].day <= p.day
    requires from <= plan[0].day
    ensures DaysOf(plan) == {plan[0].day} + DaysOf(plan[1..])
    ensures plan[0].day == from ==> OtherDays(plan, from) == OtherDays(plan[1..], from)
    ensures plan[0].day > from ==> OtherDays(plan, from) == OtherDays(plan[1..], plan[0].day) + 1 && from !in DaysOf(plan)
  {
    var day, rest := plan[0].day, plan[1..];
    assert plan == [plan[0]] + rest;
    if day == from {
      assert DaysOf(plan) - {from} == DaysOf(rest) - {from};
    } else {
      assert from !in DaysOf(plan);
      assert DaysOf(plan) - {from} == (DaysOf(rest) - {day}) + {day};
    }
  }

  lemma OneMoreCap(cap: int, n: int)
    ensures cap * (n + 1) == cap * n + cap
  {
  }

  /** What the counters' own day still leaves, if the plan uses that day. */
  ghost function Today(lim: DailyLimits, c: Counters, plan: seq<Planned>): int {
    if c.day in DaysOf(plan) then lim.withdrawCap - c.withdrawSum else 0
  }

  /** Days of an admitted plan other than the counters' own day each carry at most one cap. */
  lemma {:induction false} PaidPerDay(lim: DailyLimits, c: Counters, plan: seq<Planned>)
    requires Admitted(lim, c, plan) && c.withdrawSum >= 0
    ensures forall p :: p in plan ==> c.day <= p.day
    ensures Paid(plan) <= lim.withdrawCap * OtherDays(plan, c.day) + Today(lim, c, plan)
    decreases |plan|
  {
    if plan == [] {
      assert DaysOf(plan) - {c.day} == {};
    } else {
      PaidPerDay(lim, Bump(c, plan[0]), plan[1..]);
      PaidOneMore(lim, c, plan);
    }
  }

  lemma PaidOneMore(lim: DailyLimits, c: Counters, plan: seq<Planned>)
    requires plan != [] && Admitted(lim, c, plan) && c.withdrawSum >= 0
    requires forall p :: p in plan[1..] ==> plan[0].day <= p.day
    requires var next := Bump(c, plan[0]);
             Paid(plan[1..]) <= lim.withdrawCap * OtherDays(plan[1..], next.day) + Today(lim, next, plan[1..])
    ensures Paid(plan) <= lim.withdrawCap * OtherDays(plan, c.day) + Today(lim, c, plan)
  {
    var p, rest := plan[0], plan[1..];
    DaysStep(plan, c.day);
    OneMoreCap(lim.withdrawCap, OtherDays(rest, p.day));
    assert p.amount + Today(lim, Bump(c, p), rest) <= lim.withdrawCap - ForDay(c, p.day).withdrawSum;
  }

  /** How many portions of size b cover a. */
  function Portions(a: int, b: int): nat
    requires b > 0
    decreases if a > 0 then a else 0
  {
    if a <= 0 then 0 else 1 + Portions(a - b, b)
  }

  lemma MulOrder(b: int, x: int, y: int)
    requires b > 0 && b * x < b * y
    ensures x < y
  {
  }

  lemma DivIsUnique(x: int, b: int, q: int)
    requires b > 0 && b * q <= x < b * q + b
    ensures x / b == q
  {
    var d := x / b;
    assert b * d <= x < b * d + b;
    OneMoreCap(b, d);
    OneMoreCap(b, q);
    MulOrder(b, q, d + 1);
    MulOrder(b, d, q + 1);
  }

  lemma DivStep(x: int, b: int)
    requires b > 0
    ensures (x + b) / b == x / b + 1
  {
    OneMoreCap(b, x / b);
    DivIsUnique(x + b, b, x / b + 1);
  }

  lemma {:induction false} PortionsIsCeiling(a: nat, b: int)
    requires b > 0
    ensures (a + b - 1) / b == Portions(a, b)
    decreases a
  {
    if a > 0 {
      DivStep(a - 1, b);
      if a > b {
        PortionsIsCeiling(a - b, b);
      } else {
        assert Portions(a - b, b) == 0;
      }
    }
  }

  lemma {:induction false} PortionsLeast(a: int, b: int, n: nat)
    requires b > 0 && a <= b * n
    ensures Portions(a, b) <= n
    decreases n
  {
    if a > 0 {
      OneMoreCap(b, n - 1);
      PortionsLeast(a - b, b, n - 1);
    }
  }

  lemma DaysNeededInPortions(balance: int, lim: DailyLimits)
    requires balance > 0 && lim.withdrawCap > 0 && lim.withdrawCount > 0
    ensures WithdrawDaysNeeded(balance, lim) == Portions(Portions(balance, lim.withdrawCap), lim.withdrawCount)
  {
    PortionsIsCeiling(balance, lim.withdrawCap);
    PortionsIsCeiling(Portions(balance, lim.withdrawCap), lim.withdrawCount);
  }

  lemma {:induction false} PortionsOfUnit(n: nat)
    ensures Portions(n, 1) == n
    decreases n
  {
    if n > 0 {
      PortionsOfUnit(n - 1);
    }
  }

  lemma {:induction false} FewerPortions(n: nat, count: int)
    requires count >= 2 && n >= 2
    ensures Portions(n, count) < n
    decreases n
  {
    assert Portions(n - count, count) <= n - 2 by {
      if n - count >= 2 {
        FewerPortions(n - count, count);
      }
    }
  }

  lemma CapsCover(lim: DailyLimits, c: Counters, plan: seq<Planned>)
    requires Admitted(lim, c, plan) && c.withdrawSum >= 0 && lim.withdrawCap > 0
    ensures Paid(plan) <= lim.withdrawCap * |DaysOf(plan)|
  {
    PaidPerDay(lim, c, plan);
    var days, others := DaysOf(plan), DaysOf(plan) - {c.day};
    if c.day in days {
      assert days == others + {c.day};
      assert |days| == |others| + 1;
      OneMoreCap(lim.withdrawCap, |others|);
    } else {
      assert days == others;
    }
  }

  /** No schedule the daily limits admit empties the balance in fewer days than the estimate:
      it takes at least one day per daily cap. */
  lemma EstimateIsLowerBound(lim: DailyLimits, c: Counters, plan: seq<Planned>)
    requires Admitted(lim, c, plan) && c.withdrawSum >= 0
    requires lim.withdrawCap > 0 && lim.withdrawCount > 0
    requires Paid(plan) > 0
    ensures WithdrawDaysNeeded(Paid(plan), lim) <= Portions(Paid(plan), lim.withdrawCap) <= |DaysOf(plan)|
  {
    var n := Portions(Paid(plan), lim.withdrawCap);
    CapsCover(lim, c, plan);
    PortionsLeast(Paid(plan), lim.withdrawCap, |DaysOf(plan)|);
    DaysNeededInPortions(Paid(plan), lim);
    if lim.withdrawCount == 1 {
      PortionsOfUnit(n);
    } else if n >= 2 {
      FewerPortions(n, lim.withdrawCount);
    }
  }

  /** One withdrawal a day: the cap, or whatever is left. */
  function Greedy(balance: nat, cap: nat, day: Day): seq<Planned>
    requires cap > 0
    decreases balance
  {
    if balance == 0 then []
    else
      var amount := if balance <= cap then balance else cap;
      [Planned(day, amount)] + Greedy(balance - amount, cap, day + 1)
  }

  lemma GreedyUnfolds(balance: nat, cap: nat, day: Day)
    requires cap > 0 && balance > 0
    ensures var plan := Greedy(balance, cap, day);
            && plan[0] == Planned(day, Min(balance, cap))
            && plan[1..] == Greedy(balance - Min(balance, cap), cap, day + 1)
            && DaysOf(plan) == {day} + DaysOf(plan[1..])
  {
    var plan := Greedy(balance, cap, day);
    assert plan[1..] == Greedy(balance - Min(balance, cap), cap, day + 1);
    assert plan == [plan[0]] + plan[1..];
  }

  lemma AdmittedFirst(lim: DailyLimits, c: Counters, plan: seq<Planned>)
    requires plan != [] && c.day <= plan[0].day && CheckDailyWithdraw(lim, c, plan[0].amount, plan[0].day).None?
    requires Admitted(lim, Bump(c, plan[0]), plan[1..])
    ensures Admitted(lim, c, plan)
  {
  }

  lemma {:induction false} GreedyAdmitted(lim: DailyLimits, c: Counters, balance: nat, day: Day)
    requires lim.withdrawCap > 0 && lim.withdrawCount > 0 && c.day < day
    ensures Admitted(lim, c, Greedy(balance, lim.withdrawCap, day))
    decreases balance
  {
    if balance > 0 {
      var p := Planned(day, Min(balance, lim.withdrawCap));
      GreedyAdmitted(lim, Bump(c, p), balance - p.amount, day + 1);
      GreedyUnfolds(balance, lim.withdrawCap, day);
      AdmittedFirst(lim, c, Greedy(balance, lim.withdrawCap, day));
    }
  }

  lemma {:induction false} GreedyMeetsMinimum(w: Wallet, cap: nat, day: Day)
    requires w.balance >= 0 && cap > 0 && cap >= MinWithdrawal(Some(w))
    ensures MeetsMinimum(w, Greedy(w.balance, cap, day))
    decreases w.balance
  {
    if w.balance > 0 {
      GreedyUnfolds(w.balance, cap, day);
      GreedyMeetsMinimum(w.(balance := w.balance - Min(w.balance, cap)), cap, day + 1);
    }
  }

  lemma NewDayCounts(days: set<Day>, day: Day)
    requires day !in days
    ensures |{day} + days| == 1 + |days|
  {
  }

  lemma {:induction false} GreedyPaid(balance: nat, cap: nat, day: Day)
    requires cap > 0
    ensures Paid(Greedy(balance, cap, day)) == balance
    decreases balance
  {
    if balance > 0 {
      GreedyPaid(balance - Min(balance, cap), cap, day + 1);
      GreedyUnfolds(balance, cap, day);
    }
  }

  lemma {:induction false} GreedyDays(balance: nat, cap: nat, day: Day)
    requires cap > 0
    ensures |DaysOf(Greedy(balance, cap, day))| == Portions(balance, cap)
    ensures forall d :: d in DaysOf(Greedy(balance, cap, day)) ==> day <= d
    decreases balance
  {
    if balance == 0 {
      assert DaysOf(Greedy(balance, cap, day)) == {};
    } else {
      var first := Min(balance, cap);
      GreedyDays(balance - first, cap, day + 1);
      GreedyUnfolds(balance, cap, day);
      NewDayCounts(DaysOf(Greedy(balance - first, cap, day + 1)), day);
      PortionTaken(balance, cap);
    }
  }

  lemma PortionTaken(balance: nat, cap: nat)
    requires cap > 0 && balance > 0
    ensures Portions(balance, cap) == 1 + Portions(balance - Min(balance, cap), cap)
  {
  }

  /** A balance that fits in one day's cap goes out in one withdrawal, whatever the minimum is. */
  lemma AllAtOnce(w: Wallet, lim: DailyLimits, c: Counters) returns (plan: seq<Planned>)
    requires 0 < w.balance <= lim.withdrawCap && lim.withdrawCount > 0
    ensures Admitted(lim, c, plan) && MeetsMinimum(w, plan) && Paid(plan) == w.balance && |DaysOf(plan)| == 1
  {
    plan := [Planned(c.day + 1, w.balance)];
    assert plan[1..] == [];
    assert DaysOf(plan) == {c.day + 1};
  }

  /** Below the minimum only a withdrawal of the whole balance passes, and a daily cap below the minimum keeps it
      out as well. */
  lemma NoFirstWithdrawal(w: Wallet, lim: DailyLimits, c: Counters, plan: seq<Planned>)
    requires lim.withdrawCap < MinWithdrawal(Some(w)) && lim.withdrawCap < w.balance && c.withdrawSum >= 0
    requires plan != []
    ensures !(Admitted(lim, c, plan) && MeetsMinimum(w, plan))
  {
  }

  /** The estimate is the true minimum, reached by some schedule every check accepts, exactly when one cap covers the
      balance, or one withdrawal a day is allowed and the cap is not below the minimum withdrawal. With a larger
      count the cap is still a daily sum, so the estimate divides by the count what the count cannot speed up; with a
      cap below both the minimum and the balance no schedule empties the balance at all. */
  lemma EstimateExact(w: Wallet, lim: DailyLimits, c: Counters)
    requires lim.withdrawCap > 0 && lim.withdrawCount > 0
    requires w.balance > 0 && c.withdrawSum >= 0
    ensures (exists plan :: Admitted(lim, c, plan) && MeetsMinimum(w, plan) && Paid(plan) == w.balance
                            && |DaysOf(plan)| == WithdrawDaysNeeded(w.balance, lim))
            <==> (w.balance <= lim.withdrawCap || (lim.withdrawCount == 1 && lim.withdrawCap >= MinWithdrawal(Some(w))))
  {
    DaysNeededInPortions(w.balance, lim);
    if w.balance <= lim.withdrawCap {
      var plan := AllAtOnce(w, lim, c);
    } else if lim.withdrawCap < MinWithdrawal(Some(w)) {
      forall plan | Paid(plan) == w.balance ensures !(Admitted(lim, c, plan) && MeetsMinimum(w, plan)) {
        NoFirstWithdrawal(w, lim, c, plan);
      }
    } else if lim.withdrawCount == 1 {
      OneCapADay(w, lim, c);
    } else {
      FewerPortions(Portions(w.balance, lim.withdrawCap), lim.withdrawCount);
      forall plan | Admitted(lim, c, plan) && Paid(plan) == w.balance
        ensures |DaysOf(plan)| != WithdrawDaysNeeded(w.balance, lim) {
        EstimateIsLowerBound(lim, c, plan);
      }
    }
  }

  lemma OneCapADay(w: Wallet, lim: DailyLimits, c: Counters)
    requires lim.withdrawCap > 0 && lim.withdrawCount == 1 && lim.withdrawCap >= MinWithdrawal(Some(w)) && w.balance > 0
    ensures exists plan :: Admitted(lim, c, plan) && MeetsMinimum(w, plan) && Paid(plan) == w.balance
                           && |DaysOf(plan)| == WithdrawDaysNeeded(w.balance, lim)
  {
    DaysNeededInPortions(w.balance, lim);
    PortionsOfUnit(Portions(w.balance, lim.withdrawCap));
    var plan := Greedy(w.balance, lim.withdrawCap, c.day + 1);
    GreedyAdmitted(lim, c, w.balance, c.day + 1);
    GreedyMeetsMinimum(w, lim.withdrawCap, c.day + 1);
    GreedyPaid(w.balance, lim.withdrawCap, c.day + 1);
    GreedyDays(w.balance, lim.withdrawCap, c.day + 1);
    assert |DaysOf(plan)| == WithdrawDaysNeeded(w.balance, lim);
  }
}
