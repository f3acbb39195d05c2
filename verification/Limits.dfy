/** The per-wallet limits: defaults, overrides, the daily checks, and what the PIX dialogs show. */
module Limits {
  import opened Rows

  const MAX_INBOUND := 100_000_000
  const DEFAULT_DAILY_DEPOSIT_CAP := 100_000
  const DEFAULT_DAILY_WITHDRAW_CAP := 100_000
  const DEFAULT_DAILY_WITHDRAW_COUNT := 1
  const DEFAULT_MIN_DEPOSIT := 100
  const DEFAULT_MAX_DEPOSIT := 1_000_000
  const ABSOLUTE_MIN_DEPOSIT := 100
  const DEFAULT_MIN_WITHDRAWAL := 100
  const ABSOLUTE_MIN_WITHDRAWAL := 100

  function Min(a: int, b: int): int { if a <= b then a else b }

  function Max(a: int, b: int): int { if a >= b then a else b }

  function OrDefault(override: int, default: int): int { if override > 0 then override else default }

  datatype DailyLimits = DailyLimits(depositCap: int, withdrawCap: int, withdrawCount: int)

  function EffectiveDailyLimits(w: Option<Wallet>): DailyLimits
  {
    match w
    case None => DailyLimits(DEFAULT_DAILY_DEPOSIT_CAP, DEFAULT_DAILY_WITHDRAW_CAP, DEFAULT_DAILY_WITHDRAW_COUNT)
    case Some(row) => DailyLimits(
      OrDefault(row.overrides.dailyDepositCap, DEFAULT_DAILY_DEPOSIT_CAP),
      OrDefault(row.overrides.dailyWithdrawCap, DEFAULT_DAILY_WITHDRAW_CAP),
      OrDefault(row.overrides.dailyWithdrawCount, DEFAULT_DAILY_WITHDRAW_COUNT))
  }

  /** Counters as they stand for `day`: zero when the day rolled. */
  function ForDay(c: Counters, day: Day): Counters {
    if c.day != day then Counters(day, 0, 0, 0) else c
  }

  /** The counters a flow starts from: an absent attribute is all zero. */
  function CurrentFor(prev: Option<Counters>, day: Day): Counters {
    match prev
    case None => Counters(day, 0, 0, 0)
    case Some(c) => ForDay(c, day)
  }

  datatype Breach = DepositCap(limit: int, used: int) | WithdrawCount(limit: int, used: int) | WithdrawCap(limit: int, used: int)

  function CheckDailyDeposit(lim: DailyLimits, c: Counters, amount: int, day: Day): Option<Breach> {
    var used := ForDay(c, day).depositSum;
    if amount > lim.depositCap - used then Some(DepositCap(lim.depositCap, used)) else None
  }

  function CheckDailyWithdraw(lim: DailyLimits, c: Counters, amount: int, day: Day): Option<Breach> {
    var cur := ForDay(c, day);
    if cur.withdrawCount >= lim.withdrawCount then Some(WithdrawCount(lim.withdrawCount, cur.withdrawCount))
    else if amount > lim.withdrawCap - cur.withdrawSum then Some(WithdrawCap(lim.withdrawCap, cur.withdrawSum))
    else None
  }

  function MinDeposit(w: Option<Wallet>): int {
    Max(ABSOLUTE_MIN_DEPOSIT, if w.Some? then OrDefault(w.value.overrides.minDeposit, DEFAULT_MIN_DEPOSIT) else DEFAULT_MIN_DEPOSIT)
  }

  function MaxDeposit(w: Option<Wallet>): int {
    Max(MinDeposit(w), if w.Some? then OrDefault(w.value.overrides.maxDeposit, DEFAULT_MAX_DEPOSIT) else DEFAULT_MAX_DEPOSIT)
  }

  predicate ValidDepositAmount(amount: int, w: Option<Wallet>) {
    MinDeposit(w) <= amount <= MaxDeposit(w)
  }

  function MinWithdrawal(w: Option<Wallet>): int {
    Max(ABSOLUTE_MIN_WITHDRAWAL, if w.Some? then OrDefault(w.value.overrides.minWithdrawal, DEFAULT_MIN_WITHDRAWAL) else DEFAULT_MIN_WITHDRAWAL)
  }

  predicate ValidWithdrawalAmount(amount: int, w: Option<Wallet>, fullBalance: bool, isClosure: bool) {
    fullBalance || isClosure || amount >= MinWithdrawal(w)
  }

  /** What a wallet's overrides make of the limits. A cap or a count is the override where one is set, and otherwise 1000
      reais and one withdrawal a day. A deposit is accepted from one real and the wallet's minimum up to its maximum,
      the minimum itself always; a withdrawal from one real and the wallet's minimum, or when it empties the wallet. */
  lemma LimitsFollowOverrides(w: Wallet, amount: int)
    ensures var o, lim := w.overrides, EffectiveDailyLimits(Some(w));
            && (if o.dailyDepositCap > 0 then lim.depositCap == o.dailyDepositCap else lim.depositCap == 100_000)
            && (if o.dailyWithdrawCap > 0 then lim.withdrawCap == o.dailyWithdrawCap else lim.withdrawCap == 100_000)
            && (if o.dailyWithdrawCount > 0 then lim.withdrawCount == o.dailyWithdrawCount else lim.withdrawCount == 1)
    ensures EffectiveDailyLimits(None) == DailyLimits(100_000, 100_000, 1)
    ensures var least := if w.overrides.minDeposit > 0 then w.overrides.minDeposit else 100;
            var most := if w.overrides.maxDeposit > 0 then w.overrides.maxDeposit else 1_000_000;
            ValidDepositAmount(amount, Some(w)) <==>
              amount >= 100 && amount >= least && (amount <= most || amount == 100 || amount == least)
    ensures var least := if w.overrides.minWithdrawal > 0 then w.overrides.minWithdrawal else 100;
            ValidWithdrawalAmount(amount, Some(w), amount == w.balance, false) <==>
              amount == w.balance || (amount >= 100 && amount >= least)
  {
  }

  datatype DepositView = DepositView(min: int, max: int, dailyCap: int, dailyRemaining: int, maxNow: int)
  datatype WithdrawView = WithdrawView(min: int, dailyCap: int, dailyRemaining: int, countRemaining: int, maxNow: int)
  datatype RailLimits = RailLimits(deposit: DepositView, withdraw: WithdrawView)

  function BalanceOf(w: Option<Wallet>): int { if w.Some? then w.value.balance else 0 }

  /** What the two PIX dialogs may offer right now. */
  function ComputeRailLimits(w: Option<Wallet>, c: Counters, day: Day): RailLimits {
    var used := ForDay(c, day);
    var daily := EffectiveDailyLimits(w);
    var depRemaining := Max(0, daily.depositCap - used.depositSum);
    var depFit := Min(MaxDeposit(w), depRemaining);
    var depNow := if depFit < MinDeposit(w) then 0 else depFit;
    var wdRemaining := Max(0, daily.withdrawCap - used.withdrawSum);
    var countRemaining := Max(0, daily.withdrawCount - used.withdrawCount);
    var balance := BalanceOf(w);
    var wdFit := Min(balance, wdRemaining);
    var wdNow := if countRemaining == 0 || wdFit <= 0 || (wdFit < MinWithdrawal(w) && wdFit != balance) then 0 else wdFit;
    RailLimits(
      DepositView(MinDeposit(w), MaxDeposit(w), daily.depositCap, depRemaining, depNow),
      WithdrawView(MinWithdrawal(w), daily.withdrawCap, wdRemaining, countRemaining, wdNow))
  }

  // ---- the amount form of the UI ----

  /** A JavaScript number used as a bound: a whole amount, or Infinity. */
  datatype Bound = Finite(n: int) | Infinity

  function BoundMin(a: Bound, b: Bound): Bound {
    if a.Finite? && (b.Infinity? || a.n <= b.n) then a else b
  }

  predicate AtMost(amount: int, b: Bound) { b.Infinity? || amount <= b.n }

  predicate AtLeast(amount: int, b: Bound) { b.Finite? && amount >= b.n }

  datatype AmountBounds = AmountBounds(min: Bound, max: Bound, blocked: bool)

  function AmountBoundsFor(ceiling: Bound, balance: Bound, limitNow: Option<int>, min: Option<int>): AmountBounds {
    var max := BoundMin(BoundMin(ceiling, balance), if limitNow.Some? then Finite(limitNow.value) else Infinity);
    AmountBounds(BoundMin(Finite(if min.Some? then min.value else 1), max), max, limitNow == Some(0))
  }

  predicate FormAccepts(b: AmountBounds, amount: int) {
    !b.blocked && amount > 0 && AtLeast(amount, b.min) && AtMost(amount, b.max)
  }

  function DepositForm(w: Option<Wallet>, c: Counters, day: Day): AmountBounds {
    var v := ComputeRailLimits(w, c, day).deposit;
    AmountBoundsFor(Finite(MAX_INBOUND), Infinity, Some(v.maxNow), Some(v.min))
  }

  function WithdrawForm(w: Option<Wallet>, c: Counters, day: Day): AmountBounds {
    var v := ComputeRailLimits(w, c, day).withdraw;
    AmountBoundsFor(Infinity, Finite(BalanceOf(w)), Some(v.maxNow), Some(v.min))
  }

  // ---- what the server enforces ----

  /** The range and daily checks of a deposit, without the inbound ceiling. */
  predicate DepositInRange(w: Option<Wallet>, c: Counters, day: Day, amount: int) {
    amount > 0 && ValidDepositAmount(amount, w) && CheckDailyDeposit(EffectiveDailyLimits(w), c, amount, day).None?
  }

  predicate ServerAcceptsDeposit(w: Option<Wallet>, c: Counters, day: Day, amount: int) {
    amount <= MAX_INBOUND && DepositInRange(w, c, day, amount)
  }

  /** Every check of a withdrawal: the minimum (or the whole balance), the daily limits, and the debit's own balance. */
  predicate ServerAcceptsWithdrawal(w: Option<Wallet>, c: Counters, day: Day, amount: int) {
    && amount > 0
    && ValidWithdrawalAmount(amount, w, amount == BalanceOf(w), false)
    && CheckDailyWithdraw(EffectiveDailyLimits(w), c, amount, day).None?
    && amount <= BalanceOf(w)
  }

  /** The deposit form and the server agree on every amount exactly when the wallet's minimum deposit
      fits under the inbound ceiling, or nothing can be deposited now. Above it the form offers the
      ceiling itself, which the server refuses. */
  lemma DepositFormExact(w: Option<Wallet>, c: Counters, day: Day)
    ensures (forall amount :: FormAccepts(DepositForm(w, c, day), amount) <==> ServerAcceptsDeposit(w, c, day, amount))
            <==> (MinDeposit(w) <= MAX_INBOUND || ComputeRailLimits(w, c, day).deposit.maxNow == 0)
  {
    if MinDeposit(w) > MAX_INBOUND && ComputeRailLimits(w, c, day).deposit.maxNow != 0 {
      assert FormAccepts(DepositForm(w, c, day), MAX_INBOUND) && !ServerAcceptsDeposit(w, c, day, MAX_INBOUND);
    }
  }

  /** The withdrawal form and the server agree on every amount, the empty-the-balance exception included. */
  lemma WithdrawFormExact(w: Option<Wallet>, c: Counters, day: Day, amount: int)
    ensures FormAccepts(WithdrawForm(w, c, day), amount) <==> ServerAcceptsWithdrawal(w, c, day, amount)
  {
    var v := ComputeRailLimits(w, c, day).withdraw;
    if v.maxNow != 0 && v.maxNow < v.min {
      assert v.maxNow == BalanceOf(w);
    }
  }

  /** The other limits shown are what the checks enforce: the range is the one amounts are accepted in, what remains of a
      day is what the daily check still takes, and a withdrawal more is allowed while the remaining count is not zero. */
  lemma ShownIsEnforced(w: Option<Wallet>, c: Counters, day: Day, amount: int)
    requires amount > 0
    ensures var v, lim := ComputeRailLimits(w, c, day), EffectiveDailyLimits(w);
            && (v.deposit.min <= amount <= v.deposit.max <==> ValidDepositAmount(amount, w))
            && (amount <= v.deposit.dailyRemaining <==> CheckDailyDeposit(lim, c, amount, day).None?)
            && (v.withdraw.min <= amount <==> ValidWithdrawalAmount(amount, w, false, false))
            && (amount <= v.withdraw.dailyRemaining && v.withdraw.countRemaining > 0 <==> CheckDailyWithdraw(lim, c, amount, day).None?)
            && v.deposit.dailyCap == lim.depositCap && v.withdraw.dailyCap == lim.withdrawCap
  {
  }

  ghost predicate GreatestOrZero(n: int, accepts: int -> bool) {
    if n == 0 then forall amount :: !accepts(amount)
    else accepts(n) && forall amount :: accepts(amount) ==> amount <= n
  }

  /** `max_now` is the greatest amount the range and daily checks accept, or 0 when they accept none. */
  lemma MaxNowIsGreatest(w: Option<Wallet>, c: Counters, day: Day)
    ensures GreatestOrZero(ComputeRailLimits(w, c, day).deposit.maxNow, amount => DepositInRange(w, c, day, amount))
    ensures GreatestOrZero(ComputeRailLimits(w, c, day).withdraw.maxNow, amount => ServerAcceptsWithdrawal(w, c, day, amount))
  {
    var now := ComputeRailLimits(w, c, day).withdraw.maxNow;
    forall amount ensures ServerAcceptsWithdrawal(w, c, day, amount) ==> 0 < amount <= now {
      WithdrawFormExact(w, c, day, amount);
    }
    WithdrawFormExact(w, c, day, now);
  }
}
