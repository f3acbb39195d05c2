/** The withdrawal flow: checks, one debit with its row and counters, one payout request, and what the rail's
    answer makes of it. */
module Withdraw {
  import opened Rows
  import opened Limits
  import opened Store
  import opened System
  import opened Withdrawals
  import opened Growth
  import opened Runs
  import opened Theorems
  import opened Calls
  import opened Repository
  import opened Reconcile

  datatype Result =
    | NotVerified | AmountTooLow | OverLimit(breach: Breach) | IdemConflict | NoBalance
    | Unavailable
    | Existing(row: WithdrawalRow)
    | Sent(row: WithdrawalRow)
    | Paid(row: WithdrawalRow)
    | RefusedByRail

  /** What the caller may conclude from each answer. */
  ghost predicate Meaning(env: Env, s: State, wid: WithdrawalId, amount: int, pixKey: string, r: Result) {
    match r
    case Existing(row) => KnowsWithdrawal(s, wid, row) && row.amount == amount
    case Sent(row) => KnowsWithdrawal(s, wid, row) && row.amount == amount && row.pixKey == pixKey && wid in s.payoutAsks
    case Paid(row) =>
      && KnowsWithdrawal(s, wid, row) && row.amount == amount && row.pixKey == pixKey
      && wid in s.payouts && s.payouts[wid].status == PayoutDone
    case RefusedByRail => wid in s.db.withdrawals && wid in s.payouts && s.payouts[wid].status == PayoutFailed
    case _ => true
  }

  /** A refused withdrawal has been reversed, or its reversal is on record as failed. */
  ghost predicate Undone(s: State, wid: WithdrawalId) {
    wid in s.db.withdrawals && (s.db.withdrawals[wid].status == Reversed || s.db.withdrawals[wid].status == ReversalFailed)
  }

  /** The answers after which this call has moved no money. */
  predicate MovedNothing(r: Result) {
    r.NotVerified? || r.AmountTooLow? || r.OverLimit? || r.IdemConflict? || r.NoBalance? || r.Existing?
  }

  /** What a call makes of the rail's answer, in the steps that begin with its request: a payout done is recorded as
      completed, one that failed is reversed at once, and one that is not settled, or whose answer was lost, is left
      for the reconcile pass. */
  ghost predicate Followed(env: Env, start: State, s: State, wid: WithdrawalId, row: WithdrawalRow, h: Heard, r: Result,
      steps: seq<Action>, clean: bool)
  {
    && h.wid == wid && Later(start, h.at) && Later(h.at, s) && PayoutTruth(h.at, wid, h.answer) && wid in h.at.payoutAsks
    && match h.answer
       case TransferDone =>
         || (r.Unavailable? && !clean)
         || (r.Paid? && wid in s.db.withdrawals && s.db.withdrawals[wid].status == Completed
             && steps == [AskPayout(wid), SetWithdrawal(wid, Completed, RailFailed)])
       case TransferFailed => r.RefusedByRail? && (clean ==> GivenBack(env, h.at, s, wid, row, steps))
       case KeyNotFound => r.RefusedByRail? && (clean ==> GivenBack(env, h.at, s, wid, row, steps))
       case TransferNotFound => false
       case _ => r.Sent? && steps == [AskPayout(wid)]
  }

  ghost predicate GivenBack(env: Env, start: State, s: State, wid: WithdrawalId, row: WithdrawalRow, steps: seq<Action>) {
    ReversalEnded(env, start, s, wid, row, true, steps) || ReversalEnded(env, start, s, wid, row, false, steps)
  }

  lemma FollowedWider(env: Env, start: State, from: State, s: State, wid: WithdrawalId, row: WithdrawalRow, h: Heard, r: Result,
      steps: seq<Action>, clean: bool, clean': bool)
    requires Followed(env, from, s, wid, row, h, r, steps, clean) && Later(start, from) && (clean' ==> clean)
    ensures Followed(env, start, s, wid, row, h, r, steps, clean')
  {
    hide Later;
    LaterTrans(start, from, h.at);
  }

  lemma RowOfKey(env: Env, s: State, wid: WithdrawalId, pixKey: string, amount: nat)
    requires Reachable(env, s) && WithdrawKey(wid) in s.db.guards
        && s.db.guards[WithdrawKey(wid)].hash == ReqHash(Text(pixKey), amount)
    ensures wid in s.db.withdrawals && s.db.withdrawals[wid].amount == amount && s.db.withdrawals[wid].pixKey == pixKey
  {
    ReachableInv(env, s);
    assert RowOk(s, wid);
  }

  lemma Funds(env: Env, s: State, f: Flow, e: Entry)
    requires Reachable(env, s) && f.PayOut? && Repository.Committed(s, MutationOf(env, f), e)
    ensures f.wid in s.db.withdrawals && s.db.withdrawals[f.wid].amount == f.withdrawal.amount
        && s.db.withdrawals[f.wid].pixKey == f.withdrawal.pixKey
  {
    RowOfKey(env, s, f.wid, f.withdrawal.pixKey, f.withdrawal.amount);
  }

  /** After the debit: one payout request, and its answer. The destination is the row's own key. */
  method PayRow(c: Call, wid: WithdrawalId, row: WithdrawalRow) returns (r: Result)
    requires c.Valid() && wid in c.sys.payer && c.sys.payer[wid] == c.me && KnowsWithdrawal(c.sys, wid, row)
    modifies c`sys, c`did, c`tried, c`faults, c`heard
    ensures c.Valid() && Later(old(c.sys), c.sys)
    ensures Meaning(c.env, c.sys, wid, row.amount, row.pixKey, r)
    ensures r.Sent? || r.Paid? || r.RefusedByRail? || r.Unavailable?
    ensures old(c.did) + [AskPayout(wid)] <= c.did && c.faults >= old(c.faults) && old(c.heard) <= c.heard
    ensures |c.heard| == |old(c.heard)| + 1 && Followed(c.env, old(c.sys), c.sys, wid, row, c.heard[|old(c.heard)|], r,
                                                        c.did[|old(c.did)|..], c.faults == old(c.faults))
  {
    hide Later, Reachable, ReversalEnded, GivenBack;
    ghost var begun := c.sys;
    var res, said := AskRail(c, wid, row);
    ghost var before := c.sys;
    match res {
      case KeyNotFound => r := Refund(c, wid, row, said);
      case TransferFailed => r := Refund(c, wid, row, said);
      case TransferDone => r := RecordPaid(c, wid, row, said);
      case _ =>
        LaterRefl(before);
        r := Sent(row);
    }
    LaterTrans(begun, before, c.sys);
    LaterTrans(said, before, c.sys);
    assert c.did[|old(c.did)|..] == [AskPayout(wid)] + c.did[|old(c.did)| + 1..];
  }

  /** The one request, and what the rail had said by the time the code acts on it. */
  method AskRail(c: Call, wid: WithdrawalId, row: WithdrawalRow) returns (res: PayoutAnswer, ghost said: State)
    requires c.Valid() && wid in c.sys.payer && c.sys.payer[wid] == c.me && KnowsWithdrawal(c.sys, wid, row)
    modifies c`sys, c`did, c`tried, c`faults, c`heard
    ensures c.Valid() && Later(old(c.sys), said) && Later(old(c.sys), c.sys) && Later(said, c.sys) && KnowsWithdrawal(c.sys, wid, row)
    ensures PayoutTruth(said, wid, res) && !res.TransferNotFound? && wid in said.payoutAsks && wid in c.sys.payoutAsks
    ensures c.did == old(c.did) + [AskPayout(wid)] && c.faults == old(c.faults) + (if res.RailError? then 1 else 0)
    ensures c.heard == old(c.heard) + [Heard(wid, res, said)]
  {
    hide Reachable, PayoutTruth;
    ghost var begun := c.sys;
    c.Pause();
    ghost var start := c.sys;
    res := c.Payout(wid);
    said := c.sys;
    c.Pause();
    LaterTrans(begun, start, said);
    LaterTrans(begun, said, c.sys);
  }

  method RecordPaid(c: Call, wid: WithdrawalId, row: WithdrawalRow, ghost said: State) returns (r: Result)
    requires c.Valid() && KnowsWithdrawal(c.sys, wid, row) && PayoutTruth(said, wid, TransferDone) && Later(said, c.sys)
    modifies c`sys, c`did, c`tried, c`faults
    ensures c.Valid() && Later(old(c.sys), c.sys)
    ensures Meaning(c.env, c.sys, wid, row.amount, row.pixKey, r) && (r.Paid? || r.Unavailable?)
    ensures old(c.did) <= c.did && c.faults >= old(c.faults) && (c.faults == old(c.faults) ==> r.Paid?)
    ensures r.Paid? ==> wid in c.sys.db.withdrawals && c.sys.db.withdrawals[wid].status == Completed
    ensures r.Paid? ==> c.did == old(c.did) + [SetWithdrawal(wid, Completed, RailFailed)]
    ensures r.Unavailable? ==> c.faults > old(c.faults)
  {
    ghost var start := c.sys;
    RailWordStays(said, start, wid, TransferDone);
    var a := c.UpdateWithdrawal(wid, Completed, RailFailed);
    RailWordStays(start, c.sys, wid, TransferDone);
    r := if a.Applied? then Result.Paid(row.(status := Completed)) else Unavailable;
  }

  method Refund(c: Call, wid: WithdrawalId, row: WithdrawalRow, ghost said: State) returns (r: Result)
    requires c.Valid() && KnowsWithdrawal(c.sys, wid, row) && PayoutTruth(said, wid, TransferFailed) && Later(said, c.sys)
    modifies c`sys, c`did, c`tried, c`faults
    ensures c.Valid() && Later(old(c.sys), c.sys)
    ensures r.RefusedByRail? && Meaning(c.env, c.sys, wid, row.amount, row.pixKey, r)
    ensures c.faults >= old(c.faults) && old(c.did) <= c.did && old(c.tried) <= c.tried
    ensures forall first :: c.faults == old(c.faults) ==> GivenBack(c.env, said, c.sys, wid, row, [first] + c.did[|old(c.did)|..])
  {
    hide ReversalEnded;
    ghost var start := c.sys;
    RailWordStays(said, start, wid, TransferFailed);
    var ok := ReverseOne(c, wid, row, RailFailed);
    RailWordStays(start, c.sys, wid, TransferFailed);
    if c.faults == old(c.faults) {
      forall first: Action ensures ReversalEnded(c.env, said, c.sys, wid, row, ok, [first] + c.did[|old(c.did)|..]) {
        ReversalEndedWider(c.env, said, start, c.sys, wid, row, ok, [first], c.did[|old(c.did)|..]);
      }
    }
    r := RefusedByRail;
  }

  datatype Step = Stop(answer: Result) | Go(flow: Flow)

  // ---- why a withdrawal is refused before its debit ----

  /** At some moment the amount was at least the wallet's minimum, or exactly what the wallet held. */
  ghost predicate AmountFits(env: Env, start: State, s: State, w: WalletId, amount: int) {
    exists at :: Within(env, start, at, s) && w in at.db.wallets
                 && (amount >= MinWithdrawal(Some(at.db.wallets[w])) || amount == Holding(at, w))
  }

  ghost predicate TooSmall(env: Env, start: State, s: State, w: WalletId, amount: int) {
    exists at :: Within(env, start, at, s) && w in at.db.wallets
                 && amount < MinWithdrawal(Some(at.db.wallets[w])) && amount != Holding(at, w)
  }

  /** The day's withdrawals as stored at one moment, and the day of a clock reading not before it, leave no room: no
      further withdrawal is allowed, or not one of this amount. */
  ghost predicate DayIsFull(env: Env, at: State, now: Time, user: UserId, w: WalletId, amount: int) {
    && w in at.db.wallets && at.clock <= now
    && var lim, used := EffectiveDailyLimits(Some(at.db.wallets[w])), UsedOn(at, user, env.dayOf(now));
       used.withdrawCount >= lim.withdrawCount || used.withdrawSum + amount > lim.withdrawCap
  }

  ghost predicate OverTheDay(env: Env, start: State, s: State, user: UserId, w: WalletId, amount: int) {
    exists at, now: Time :: Within(env, start, at, s) && now <= s.clock && DayIsFull(env, at, now, user, w, amount)
  }

  lemma RefusalWider(env: Env, start: State, from: State, to: State, s: State, wid: WithdrawalId, w: WalletId, amount: int)
    requires Later(start, from) && Later(to, s)
    ensures AmountFits(env, from, to, w, amount) ==> AmountFits(env, start, s, w, amount)
    ensures TooSmall(env, from, to, w, amount) ==> TooSmall(env, start, s, w, amount)
    ensures OverTheDay(env, from, to, wid.user, w, amount) ==> OverTheDay(env, start, s, wid.user, w, amount)
  {
    hide Later, Reachable, DayIsFull, Holding, MinWithdrawal;
    forall at | Within(env, from, at, to) ensures Within(env, start, at, s) {
      WithinWider(env, start, from, at, to, s);
    }
    LaterClock(to, s);
  }

  lemma LaterClock(s: State, s': State)
    requires Later(s, s')
    ensures s.clock <= s'.clock
  {
  }

  /** The daily check, against the counters as read, says whether the day was full when they were read. */
  lemma DayJudged(env: Env, start: State, at: State, user: UserId, w: WalletId, realw: Wallet, prev: Option<Counters>, now: Time,
      amount: int)
    requires Later(start, at) && w in start.db.wallets && realw == start.db.wallets[w] && at.clock <= now
    requires prev == if user in at.db.counters then Some(at.db.counters[user]) else None
    ensures CheckDailyWithdraw(EffectiveDailyLimits(Some(realw)), CurrentFor(prev, env.dayOf(now)), amount, env.dayOf(now)).Some?
        <==> DayIsFull(env, at, now, user, w, amount)
  {
  }

  /** Why each answer before the debit was given. */
  ghost predicate StopOk(env: Env, start: State, s: State, wid: WithdrawalId, w: WalletId, amount: int, pixKey: string, r: Result) {
    match r
    case NotVerified => pixKey == ""
    case AmountTooLow => TooSmall(env, start, s, w, amount)
    case OverLimit(_) => OverTheDay(env, start, s, wid.user, w, amount)
    case IdemConflict => wid in s.db.withdrawals && s.db.withdrawals[wid].amount != amount
    case Existing(row) => KnowsWithdrawal(s, wid, row) && row.amount == amount
    case _ => false
  }

  lemma StopWider(env: Env, start: State, from: State, to: State, s: State, wid: WithdrawalId, w: WalletId, amount: int, pixKey: string,
      r: Result)
    requires StopOk(env, from, to, wid, w, amount, pixKey, r) && Later(start, from) && Later(to, s)
    ensures StopOk(env, start, s, wid, w, amount, pixKey, r)
  {
    RefusalWider(env, start, from, to, s, wid, w, amount);
  }

  /** What earlier reads amount to just before the debit. */
  lemma ReadyToPay(env: Env, read: State, s: State, wid: WithdrawalId, user: UserId, w: WalletId, realw: Wallet,
      prev: Option<Counters>, now: Time, row: WithdrawalRow)
    requires Reachable(env, s) && Calendar(env) && !env.sameDay && Later(read, s)
    requires wid.user == user && row == WithdrawalRow(w, user, row.amount, row.pixKey, Processing, row.createdAt)
    requires OwnsWallet(read, user, Real, w) && realw == read.db.wallets[w]
    requires now <= row.createdAt <= s.clock && (prev.Some? ==> prev.value.day <= env.dayOf(now))
    requires CheckDailyWithdraw(EffectiveDailyLimits(Some(realw)), CurrentFor(prev, env.dayOf(now)), row.amount, env.dayOf(now)).None?
    ensures Known(env, s, PayOut(wid, row, prev, now))
  {
  }

  /** The withdrawal a flow asks for. */
  predicate Asks(f: Flow, wid: WithdrawalId, w: WalletId, amount: int, pixKey: string) {
    f.PayOut? && f.wid == wid && f.withdrawal.wallet == w && f.withdrawal.amount == amount && f.withdrawal.pixKey == pixKey
  }

  /** Everything before the debit, in the order the code does it: replay, amount, daily limits, destination. Each
      refusal has its cause; a call that goes on passed every check. */
  method Prepare(c: Call, wid: WithdrawalId, w: WalletId, amount: int, pixKey: string) returns (step: Step)
    requires c.Valid() && OwnsWallet(c.sys, wid.user, Real, w)
    modifies c`sys
    ensures c.Valid() && Later(old(c.sys), c.sys)
    ensures step.Stop? ==> StopOk(c.env, old(c.sys), c.sys, wid, w, amount, pixKey, step.answer)
    ensures old(wid in c.sys.db.withdrawals) ==> step.Stop? && (step.answer.Existing? || step.answer.IdemConflict?)
    ensures step.Go? ==> Known(c.env, c.sys, step.flow) && Asks(step.flow, wid, w, amount, pixKey) && pixKey != ""
    ensures step.Go? ==> AmountFits(c.env, old(c.sys), c.sys, w, amount)
  {
    ghost var begun := c.sys;
    c.Pause();
    var existing := c.GetWithdrawal(wid);
    if existing.Some? {
      ReachableInv(c.env, c.sys);
      assert RowOk(c.sys, wid);
      return Stop(if existing.value.user != wid.user || existing.value.amount != amount then IdemConflict
                  else Existing(existing.value));
    }
    step := CheckFromHere(c, begun, wid, w, amount, pixKey);
  }

  method CheckFromHere(c: Call, ghost begun: State, wid: WithdrawalId, w: WalletId, amount: int, pixKey: string) returns (step: Step)
    requires c.Valid() && OwnsWallet(c.sys, wid.user, Real, w) && Later(begun, c.sys)
    modifies c`sys
    ensures c.Valid() && Later(begun, c.sys)
    ensures step.Stop? ==> StopOk(c.env, begun, c.sys, wid, w, amount, pixKey, step.answer)
    ensures step.Go? ==> Known(c.env, c.sys, step.flow) && Asks(step.flow, wid, w, amount, pixKey) && pixKey != ""
    ensures step.Go? ==> AmountFits(c.env, begun, c.sys, w, amount)
  {
    hide Later, Reachable, StopOk, AmountFits, Known;
    ghost var start := c.sys;
    step := CheckLimits(c, wid, w, amount, pixKey);
    LaterTrans(begun, start, c.sys);
    LaterRefl(c.sys);
    RefusalWider(c.env, begun, start, c.sys, c.sys, wid, w, amount);
    if step.Stop? {
      StopWider(c.env, begun, start, c.sys, c.sys, wid, w, amount, pixKey, step.answer);
    }
  }

  method CheckLimits(c: Call, wid: WithdrawalId, w: WalletId, amount: int, pixKey: string) returns (step: Step)
    requires c.Valid() && OwnsWallet(c.sys, wid.user, Real, w)
    modifies c`sys
    ensures c.Valid() && Later(old(c.sys), c.sys)
    ensures step.Stop? ==> StopOk(c.env, old(c.sys), c.sys, wid, w, amount, pixKey, step.answer)
    ensures step.Go? ==> Known(c.env, c.sys, step.flow) && Asks(step.flow, wid, w, amount, pixKey) && pixKey != ""
    ensures step.Go? ==> AmountFits(c.env, old(c.sys), c.sys, w, amount)
  {
    hide Later, Reachable, DayIsFull, Known, CheckDailyWithdraw;
    ghost var start := c.sys;
    LaterRefl(start);
    var realw := c.GetWalletRow(w);
    if !ValidWithdrawalAmount(amount, Some(realw), amount == realw.balance, false) {
      assert Within(c.env, start, start, c.sys);
      return Stop(AmountTooLow);
    }
    c.Pause();
    ghost var read := c.sys;
    var prev := c.GetCounters(wid.user);
    c.Pause();
    var now := c.Now();
    LaterTrans(start, read, c.sys);
    LaterClock(read, c.sys);
    DayJudged(c.env, start, read, wid.user, w, realw, prev, now, amount);
    assert Within(c.env, start, start, c.sys) && Within(c.env, start, read, c.sys);
    var day := c.env.dayOf(now);
    var breach := CheckDailyWithdraw(EffectiveDailyLimits(Some(realw)), CurrentFor(prev, day), amount, day);
    if breach.Some? {
      return Stop(OverLimit(breach.value));
    }
    if pixKey == "" {
      return Stop(NotVerified);
    }
    ghost var checked := c.sys;
    step := Stamp(c, start, wid, w, realw, amount, pixKey, prev, now);
    assert Within(c.env, start, start, c.sys);
  }

  method Stamp(c: Call, ghost start: State, wid: WithdrawalId, w: WalletId, realw: Wallet, amount: nat, pixKey: string,
      prev: Option<Counters>, now: Time)
    returns (step: Step)
    requires c.Valid() && Later(start, c.sys) && OwnsWallet(start, wid.user, Real, w) && realw == start.db.wallets[w]
    requires now <= c.sys.clock && (prev.Some? ==> prev.value.day <= c.env.dayOf(now))
    requires CheckDailyWithdraw(EffectiveDailyLimits(Some(realw)), CurrentFor(prev, c.env.dayOf(now)), amount, c.env.dayOf(now)).None?
    modifies c`sys
    ensures c.Valid() && Later(start, c.sys) && step.Go?
    ensures Known(c.env, c.sys, step.flow) && Asks(step.flow, wid, w, amount, pixKey)
  {
    ghost var checked := c.sys;
    var createdAt := c.NowStr();
    TickIsRelied(c.env, c.me, checked, createdAt);
    LaterTrans(start, checked, c.sys);
    ghost var stamped := c.sys;
    c.Pause();
    LaterTrans(start, stamped, c.sys);
    var row := WithdrawalRow(w, wid.user, amount, pixKey, Processing, createdAt);
    ReadyToPay(c.env, start, c.sys, wid, wid.user, w, realw, prev, now, row);
    step := Go(PayOut(wid, row, prev, now));
  }

  // ---- the debit and the payout ----

  /** The call's own steps: its debit, answered, and then its one payout request. */
  ghost predicate DebitThenAsk(f: Flow, did: seq<Action>, did': seq<Action>)
    requires f.PayOut?
  {
    && |did'| >= |did| + 2 && did <= did'
    && did'[|did|].Post? && did'[|did|].flow == f && did'[|did|].answered && did'[|did| + 1] == AskPayout(f.wid)
  }

  /** A call that asked the rail had debited first, asked once and did what the answer calls for; one that did not ask
      answers with the row that was there, a conflict, or a debit that was sent and refused. */
  ghost predicate PaidOrNot(env: Env, start: State, s: State, f: Flow, r: Result, from: Log, to: Log)
    requires f.PayOut?
  {
    if to.heard == from.heard then
      match r
      case Unavailable => to.faults > from.faults
      case Existing(row) => to.did == from.did && KnowsWithdrawal(s, f.wid, row) && row.amount == f.withdrawal.amount
      case IdemConflict => to.did == from.did && KeyTaken(s, f)
      case NoBalance => to.did == from.did && (to.faults == from.faults ==> RefusedDebit(env, start, s, f, from, to))
      case _ => false
    else
      && |to.heard| == |from.heard| + 1 && from.heard <= to.heard && DebitThenAsk(f, from.did, to.did)
      && Followed(env, start, s, f.wid, f.withdrawal, to.heard[|from.heard|], r, to.did[|from.did| + 1..], to.faults == from.faults)
  }

  /** The debit was sent and refused, and its key has not committed. */
  ghost predicate RefusedDebit(env: Env, start: State, s: State, f: Flow, from: Log, to: Log)
    requires f.PayOut?
  {
    to.tried == from.tried + [f] && WithdrawKey(f.wid) !in s.db.guards && Beaten(env, start, s, MutationOf(env, f))
  }

  /** The id was used for another amount or destination. */
  ghost predicate KeyTaken(s: State, f: Flow)
    requires f.PayOut?
  {
    f.wid in s.db.withdrawals
        && (s.db.withdrawals[f.wid].amount != f.withdrawal.amount || s.db.withdrawals[f.wid].pixKey != f.withdrawal.pixKey)
  }

  lemma ConflictIsReal(env: Env, s: State, f: Flow)
    requires Reachable(env, s) && f.PayOut? && Reported(s, MutationOf(env, f), Conflict)
    ensures KeyTaken(s, f)
  {
    ReachableInv(env, s);
    assert RowOk(s, f.wid);
  }

  lemma PayOutDebits(env: Env, f: Flow)
    requires f.PayOut?
    ensures !MutationOf(env, f).credit && MutationOf(env, f).key == WithdrawKey(f.wid)
  {
  }

  lemma PaidAfterDebit(env: Env, start: State, asked: State, s: State, f: Flow, r: Result, from: Log, debited: Log, to: Log)
    requires f.PayOut? && Posted(f, from.did, debited.did, true) && debited.did + [AskPayout(f.wid)] <= to.did && Later(start, asked)
    requires |to.heard| == |from.heard| + 1 && from.heard == debited.heard <= to.heard && from.faults <= debited.faults <= to.faults
    requires Followed(env, asked, s, f.wid, f.withdrawal, to.heard[|from.heard|], r, to.did[|debited.did|..], to.faults == debited.faults)
    ensures PaidOrNot(env, start, s, f, r, from, to)
  {
    hide Later, Followed;
    FollowedWider(env, start, asked, s, f.wid, f.withdrawal, to.heard[|from.heard|], r, to.did[|debited.did|..],
                  to.faults == debited.faults, to.faults == from.faults);
  }

  method DebitAndPay(c: Call, f: Flow) returns (r: Result)
    requires c.Valid() && f.PayOut? && Known(c.env, c.sys, f)
    modifies c`sys, c`did, c`tried, c`faults, c`heard
    ensures c.Valid() && Later(old(c.sys), c.sys) && c.faults >= old(c.faults)
    ensures Meaning(c.env, c.sys, f.wid, f.withdrawal.amount, f.withdrawal.pixKey, r)
    ensures PaidOrNot(c.env, old(c.sys), c.sys, f, r, old(c.Record()), c.Record())
  {
    hide Later, Reachable, MutationOf, Known, Beaten, Followed;
    ghost var start := c.sys;
    var o := Mutate(c, f);
    ghost var before := c.sys;
    r := AfterDebit(c, f, o, start, old(c.Record()));
    LaterTrans(start, before, c.sys);
  }

  /** What a debit's outcome leads to: the payout request after this call's own answered debit, the row of somebody
      else's debit, or nothing. The debit was begun in state `start`, with `from` on the call's record. */
  method AfterDebit(c: Call, f: Flow, o: Outcome, ghost start: State, ghost from: Log) returns (r: Result)
    requires c.Valid() && f.PayOut? && Reported(c.sys, MutationOf(c.env, f), o) && Acted(f, from.did, c.did, o)
    requires o.Done? ==> MayAsk(c.me, c.sys, f)
    requires Later(start, c.sys) && from.heard == c.heard && from.faults <= c.faults
    requires from.faults == c.faults ==> Explained(c.env, start, c.sys, MutationOf(c.env, f), o)
    requires from.faults == c.faults && o.Insufficient? ==> c.tried == from.tried + [f]
    modifies c`sys, c`did, c`tried, c`faults, c`heard
    ensures c.Valid() && Later(old(c.sys), c.sys) && c.faults >= old(c.faults)
    ensures Meaning(c.env, c.sys, f.wid, f.withdrawal.amount, f.withdrawal.pixKey, r)
    ensures PaidOrNot(c.env, start, c.sys, f, r, from, c.Record())
  {
    hide Later, Reachable, Known, Beaten, Followed, MutationOf;
    ghost var before := c.sys;
    LaterRefl(before);
    PayOutDebits(c.env, f);
    match o
    case Done(_) =>
      r := PayRow(c, f.wid, f.withdrawal);
      PaidAfterDebit(c.env, start, before, c.sys, f, r, from, old(c.Record()), c.Record());
    case Replayed(e) => r := Reread(c, f, e);
    case Conflict =>
      ConflictIsReal(c.env, c.sys, f);
      r := IdemConflict;
    case Insufficient => r := NoBalance;
    case Failed => r := Unavailable;
  }

  /** Someone else committed this withdrawal: its row is returned, and the rail is not asked. Guard and row
      commit together, so the row is always there. */
  method Reread(c: Call, f: Flow, e: Entry) returns (r: Result)
    requires c.Valid() && f.PayOut? && Repository.Committed(c.sys, MutationOf(c.env, f), e)
    modifies c`sys
    ensures c.Valid() && Later(old(c.sys), c.sys)
    ensures r.Existing? && Meaning(c.env, c.sys, f.wid, f.withdrawal.amount, f.withdrawal.pixKey, r)
  {
    hide Reachable, MutationOf, Known;
    ghost var start := c.sys;
    c.Pause();
    CommittedStays(start, c.sys, MutationOf(c.env, f), e);
    Funds(c.env, c.sys, f, e);
    var existing := c.GetWithdrawal(f.wid);
    r := Existing(existing.value);
  }

  /** How a withdrawal from wallet w ended: refused for a cause before the debit, refused by the debit, or paid out as the
      rail answered. */
  ghost predicate Ended(env: Env, start: State, s: State, wid: WithdrawalId, w: WalletId, amount: int, pixKey: string, r: Result,
      from: Log, to: Log)
  {
    || (to.did == from.did && to.heard == from.heard && StopOk(env, start, s, wid, w, amount, pixKey, r))
    || (exists f :: Sought(env, start, s, f, wid, w, amount, pixKey, r, from, to))
  }

  ghost predicate Sought(env: Env, start: State, s: State, f: Flow, wid: WithdrawalId, w: WalletId, amount: int, pixKey: string,
      r: Result, from: Log, to: Log)
  {
    && Asks(f, wid, w, amount, pixKey) && pixKey != "" && AmountFits(env, start, s, w, amount)
    && PaidOrNot(env, start, s, f, r, from, to)
  }

  lemma PaidOrNotWider(env: Env, start: State, asked: State, s: State, f: Flow, r: Result, from: Log, to: Log)
    requires f.PayOut? && PaidOrNot(env, asked, s, f, r, from, to) && Later(start, asked) && Later(asked, s)
    requires Reachable(env, start) && Reachable(env, asked)
    ensures PaidOrNot(env, start, s, f, r, from, to)
  {
    hide Later, Followed, Beaten, MutationOf, Reachable;
    LaterRefl(s);
    if to.heard != from.heard {
      FollowedWider(env, start, asked, s, f.wid, f.withdrawal, to.heard[|from.heard|], r, to.did[|from.did| + 1..],
                    to.faults == from.faults, to.faults == from.faults);
    } else if r.NoBalance? && to.faults == from.faults {
      BeatenWider(env, start, asked, s, s, MutationOf(env, f));
    }
  }

  lemma EndedWider(env: Env, start: State, asked: State, s: State, wid: WithdrawalId, w: WalletId, amount: int, pixKey: string,
      r: Result, from: Log, to: Log)
    requires Ended(env, asked, s, wid, w, amount, pixKey, r, from, to) && Later(start, asked) && Later(asked, s)
    requires Reachable(env, start) && Reachable(env, asked)
    ensures Ended(env, start, s, wid, w, amount, pixKey, r, from, to)
  {
    hide Later, Reachable, PaidOrNot, AmountFits, StopOk;
    LaterRefl(s);
    if StopOk(env, asked, s, wid, w, amount, pixKey, r) && to.did == from.did && to.heard == from.heard {
      StopWider(env, start, asked, s, s, wid, w, amount, pixKey, r);
    } else {
      var f :| Sought(env, asked, s, f, wid, w, amount, pixKey, r, from, to);
      PaidOrNotWider(env, start, asked, s, f, r, from, to);
      RefusalWider(env, start, asked, s, s, wid, w, amount);
      assert Sought(env, start, s, f, wid, w, amount, pixKey, r, from, to);
    }
  }

  method WithdrawFrom(c: Call, wid: WithdrawalId, w: WalletId, amount: int, pixKey: string) returns (r: Result)
    requires c.Valid() && OwnsWallet(c.sys, wid.user, Real, w)
    modifies c`sys, c`did, c`tried, c`faults, c`heard
    ensures c.Valid() && Later(old(c.sys), c.sys) && c.faults >= old(c.faults)
    ensures Meaning(c.env, c.sys, wid, amount, pixKey, r)
    ensures old(wid in c.sys.db.withdrawals) ==> r.Existing? || r.IdemConflict?
    ensures Ended(c.env, old(c.sys), c.sys, wid, w, amount, pixKey, r, old(c.Record()), c.Record())
  {
    hide Later, Reachable, Known, AmountFits, PaidOrNot, KnowsWithdrawal, TooSmall, OverTheDay;
    ghost var start := c.sys;
    var step := Prepare(c, wid, w, amount, pixKey);
    if step.Stop? {
      return step.answer;
    }
    ghost var before := c.sys;
    r := DebitAndPay(c, step.flow);
    LaterTrans(start, before, c.sys);
    LaterRefl(start);
    PaidOrNotWider(c.env, start, before, c.sys, step.flow, r, old(c.Record()), c.Record());
    RefusalWider(c.env, start, start, before, c.sys, wid, w, amount);
    assert Sought(c.env, start, c.sys, step.flow, wid, w, amount, pixKey, r, old(c.Record()), c.Record());
  }

  /** The withdrawal. The rail is asked only by the call whose own debit was answered; a replay never asks; every
      refusal before the debit moves nothing and has its cause; and what the rail answers is what happens. */
  method WithdrawNow(c: Call, user: UserId, verified: bool, amount: int, idem: string, pixKey: string)
    returns (r: Result, ghost w: Option<WalletId>, ghost ready: Log)
    requires c.Valid()
    modifies c`sys, c`did, c`tried, c`faults, c`heard
    ensures c.Valid() && Later(old(c.sys), c.sys)
    ensures Meaning(c.env, c.sys, WithdrawalId(user, idem), amount, pixKey, r)
    ensures OnlyOpened(user, Real, old(c.Record()), ready) && c.faults >= ready.faults
    ensures !verified ==> r == NotVerified && c.Record() == old(c.Record())
    ensures verified && w.None? ==> r == Unavailable && c.Record() == ready && c.faults > old(c.faults)
    ensures verified && w.Some? ==>
      && OwnsWallet(c.sys, user, Real, w.value)
      && Ended(c.env, old(c.sys), c.sys, WithdrawalId(user, idem), w.value, amount, pixKey, r, ready, c.Record())
  {
    hide Later, Reachable, Ended;
    LaterRefl(c.sys);
    w, ready := None, c.Record();
    if !verified {
      r := NotVerified;
      return;
    }
    ghost var start := c.sys;
    var wid := WithdrawalId(user, idem);
    var found := EnsureWallet(c, user, Real);
    w, ready := found, c.Record();
    if found.None? {
      r := Unavailable;
      return;
    }
    ghost var before := c.sys;
    r := WithdrawFrom(c, wid, found.value, amount, pixKey);
    LaterTrans(start, before, c.sys);
    EndedWider(c.env, start, before, c.sys, wid, found.value, amount, pixKey, r, ready, c.Record());
    OwnershipLasts(before, c.sys, user, Real, found.value);
  }

  lemma OwnershipLasts(s: State, s': State, user: UserId, kind: WalletType, w: WalletId)
    requires OwnsWallet(s, user, kind, w) && Later(s, s')
    ensures OwnsWallet(s', user, kind, w)
  {
  }
}
