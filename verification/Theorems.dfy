/** What every run of the wallet guarantees, whatever the interleaving of its calls. */
module Theorems {
  import opened Rows
  import opened Limits
  import opened Store
  import opened System
  import opened Sums
  import opened Ledger
  import opened Markers
  import opened Withdrawals
  import opened Deposits
  import opened Books
  import opened Holds
  import opened DailyCounters
  import opened Slots
  import opened Growth
  import opened Runs

  // ---- the ledger ----

  ghost predicate CommitsOn(env: Env, e: Event, w: WalletId) {
    e.action.Post? && MutationOf(env, e.action.flow).wallet == w
  }

  ghost function EntryWritten(env: Env, e: Event): Entry
    requires e.action.Post?
  {
    EntryFor(MutationOf(env, e.action.flow), e.action.read, e.action.sk)
  }

  /** The entries committed on wallet w, in the order of their commits. */
  ghost function CommittedOn(env: Env, events: seq<Event>, w: WalletId): seq<Entry> {
    if events == [] then []
    else
      var last := events[|events| - 1];
      CommittedOn(env, events[..|events| - 1], w) + (if CommitsOn(env, last, w) then [EntryWritten(env, last)] else [])
  }

  lemma HistoryOfStep(env: Env, c: CallId, a: Action, s: State, w: WalletId)
    requires WalletsMatch(s) && Enabled(env, c, a, s)
    ensures var s' := Effect(env, c, a, s);
            && (w in s.hist ==>
                  && w in s'.hist
                  && s'.hist[w] == s.hist[w] + (if CommitsOn(env, Event(c, a), w) then [EntryWritten(env, Event(c, a))] else []))
            && (w !in s.hist ==> !CommitsOn(env, Event(c, a), w) && (w in s'.hist ==> s'.hist[w] == []))
  {
    if !a.Post? && !a.OpenWallet? {
      LedgerUntouched(env, c, a, s);
    }
  }

  lemma {:induction false} HistoryIsCommits(env: Env, events: seq<Event>, states: seq<State>, i: nat, w: WalletId)
    requires IsRun(env, events, states) && i <= |events|
    ensures if w in states[i].hist then states[i].hist[w] == CommittedOn(env, events[..i], w) else CommittedOn(env, events[..i], w) == []
    decreases i
  {
    hide Known, Enabled;
    if i > 0 {
      HistoryIsCommits(env, events, states, i - 1, w);
      RunInv(env, events, states, i - 1);
      HistoryOfStep(env, events[i - 1].caller, events[i - 1].action, states[i - 1], w);
      assert events[..i][..i - 1] == events[..i - 1];
    }
  }

  /** At every moment a wallet's balance is the sum of the entries committed on it, never negative, and
      its version counts them. */
  lemma BalanceIsTheSumOfItsCommits(env: Env, events: seq<Event>, states: seq<State>, i: nat, w: WalletId)
    requires IsRun(env, events, states) && i <= |events| && w in states[i].db.wallets
    ensures states[i].db.wallets[w].balance == Total(CommittedOn(env, events[..i], w)) >= 0
    ensures states[i].db.wallets[w].version == Some(|CommittedOn(env, events[..i], w)|)
  {
    HistoryIsCommits(env, events, states, i, w);
    RunInv(env, events, states, i);
  }

  lemma PostOf(env: Env, events: seq<Event>, states: seq<State>, i: nat)
    requires IsRun(env, events, states) && i < |events| && events[i].action.Post?
    ensures var a, c, s := events[i].action, events[i].caller, states[i];
            CanPost(env, c, s, a.flow, a.read, a.sk) && states[i + 1] == AfterPost(env, c, s, a.flow, a.read, a.sk, a.answered)
  {
  }

  lemma CommitSetsTheBalance(env: Env, c: CallId, s: State, a: Action)
    requires LedgerInv(s) && a.Post? && CanPost(env, c, s, a.flow, a.read, a.sk)
    ensures var e, s' := EntryWritten(env, Event(c, a)), AfterPost(env, c, s, a.flow, a.read, a.sk, a.answered);
            && e.wallet in s.db.wallets && e.wallet in s'.db.wallets
            && s'.db.wallets[e.wallet].balance == e.balanceAfter == s.db.wallets[e.wallet].balance + e.amount
            && LedgerKey(e.wallet, e.sk) !in s.db.ledger && LedgerKey(e.wallet, e.sk) in s'.db.ledger
                && s'.db.ledger[LedgerKey(e.wallet, e.sk)] == e
  {
    SnapshotIsCurrent(s, MutationOf(env, a.flow), a.read, a.sk);
  }

  /** An entry says what its wallet held right after its commit, and no later action alters or drops it. */
  lemma EntryTellsTheBalance(env: Env, events: seq<Event>, states: seq<State>, i: nat, j: nat)
    requires IsRun(env, events, states) && i < j <= |events| && events[i].action.Post?
    ensures var e := EntryWritten(env, events[i]);
            && e.wallet in states[i].db.wallets && e.wallet in states[i + 1].db.wallets
            && states[i + 1].db.wallets[e.wallet].balance == e.balanceAfter == states[i].db.wallets[e.wallet].balance + e.amount
            && LedgerKey(e.wallet, e.sk) !in states[i].db.ledger
            && LedgerKey(e.wallet, e.sk) in states[j].db.ledger && states[j].db.ledger[LedgerKey(e.wallet, e.sk)] == e
  {
    RunInv(env, events, states, i);
    PostOf(env, events, states, i);
    CommitSetsTheBalance(env, events[i].caller, states[i], events[i].action);
    RunGrows(env, events, states, i + 1, j);
  }

  /** Commits on one wallet carry strictly increasing timestamps: sort-key order is commit order. */
  lemma SortKeyOrderIsCommitOrder(env: Env, events: seq<Event>, states: seq<State>, i: nat, j: nat)
    requires IsRun(env, events, states) && i < j < |events| && events[i].action.Post? && events[j].action.Post?
    requires MutationOf(env, events[i].action.flow).wallet == MutationOf(env, events[j].action.flow).wallet
    ensures events[i].action.sk.ts < events[j].action.sk.ts
  {
    RunInv(env, events, states, i);
    RunInv(env, events, states, j);
    RunGrows(env, events, states, i + 1, j);
    PostOf(env, events, states, i);
    PostOf(env, events, states, j);
    LaterStampIsLater(env, events[i].action, events[j].action, states[i], states[i + 1], states[j]);
  }

  lemma LaterStampIsLater(env: Env, a: Action, b: Action, s: State, s': State, t: State)
    requires a.Post? && b.Post? && MutationOf(env, a.flow).wallet == MutationOf(env, b.flow).wallet && LedgerInv(t)
        && Later(s', t)
    requires Commits(s, MutationOf(env, a.flow), a.read, a.sk)
        && s'.hist == AfterCommit(s, MutationOf(env, a.flow), a.read, a.sk).hist
    requires Commits(t, MutationOf(env, b.flow), b.read, b.sk)
    ensures a.sk.ts < b.sk.ts
  {
    var w := MutationOf(env, a.flow).wallet;
    SnapshotIsCurrent(t, MutationOf(env, b.flow), b.read, b.sk);
    var n := |s.hist[w]|;
    assert s'.hist[w][n].sk == a.sk;
    assert t.hist[w][n] == s'.hist[w][n];
  }

  // ---- exactly once ----

  /** No key ever commits twice, and once it has committed its guard keeps naming that very entry. */
  lemma OncePerKey(env: Env, events: seq<Event>, states: seq<State>, i: nat, j: nat)
    requires IsRun(env, events, states) && i < j <= |events| && events[i].action.Post?
    ensures var m, e := MutationOf(env, events[i].action.flow), EntryWritten(env, events[i]);
            && m.key in states[j].db.guards && states[j].db.guards[m.key] == Guard(e.wallet, e.sk, m.hash)
            && (j < |events| && events[j].action.Post? ==> MutationOf(env, events[j].action.flow).key != m.key)
  {
    RunGrows(env, events, states, i + 1, j);
  }

  /** What a replay reads: a guard always leads to the one entry committed under its key. */
  lemma GuardNamesItsEntry(env: Env, s: State, k: IdemKey, w: WalletId, i: nat)
    requires Reachable(env, s) && k in s.db.guards
    ensures GuardOk(s, k) && EntryOf(s, k).key == k && EntryOf(s, k).wallet == s.db.guards[k].wallet
        && EntryOf(s, k).wallet in s.hist
    ensures EntryOf(s, k) in s.hist[EntryOf(s, k).wallet]
    ensures w in s.hist && i < |s.hist[w]| && s.hist[w][i].key == k ==> s.hist[w][i] == EntryOf(s, k)
  {
    ReachableInv(env, s);
    assert GuardOk(s, k);
    var at := LedgerKey(s.db.guards[k].wallet, s.db.guards[k].sk);
    assert LedgerRowOk(s, at);
    var j :| 0 <= j < |s.hist[at.wallet]| && s.hist[at.wallet][j] == s.db.ledger[at];
    assert EntryOk(s, at.wallet, j);
    if w in s.hist && i < |s.hist[w]| && s.hist[w][i].key == k {
      assert EntryOk(s, w, i);
    }
  }

  /** Re-applying the lifecycle rows of a key that has committed changes nothing, whatever the replaying
      call read before: a withdrawal's row exists, a deposit has left `pending`. */
  lemma RepairIsANoOp(env: Env, s: State, f: Flow)
    requires Reachable(env, s) && (f.PayOut? || f.ConfirmDeposit?) && MutationOf(env, f).key in s.db.guards
    ensures TransactWrite(s.db, RepairTx(MutationOf(env, f))) == ConditionFailed
  {
    hide Known, Commits, OwnsWallet, LedgerInv, RailOk, RowOk;
    ReachableInv(env, s);
    var tx := RepairTx(MutationOf(env, f));
    if f.PayOut? {
      assert f.wid in tx.withdrawals && !WithdrawalCond(s.db.withdrawals, f.wid, tx.withdrawals[f.wid]);
    } else {
      assert CreditOk(s, f.txid) && DepositOk(s, f.txid);
      assert f.txid in tx.deposits && !DepositCond(s.db.deposits, f.txid, tx.deposits[f.txid]);
    }
  }

  // ---- withdrawals ----

  /** A withdrawal row exists exactly when its debit committed, with the amount of the row. */
  lemma RowExactlyWhenDebited(env: Env, s: State, wid: WithdrawalId)
    requires Reachable(env, s)
    ensures wid in s.db.withdrawals <==> WithdrawKey(wid) in s.db.guards
    ensures wid in s.db.withdrawals ==>
      GuardOk(s, WithdrawKey(wid)) && EntryOf(s, WithdrawKey(wid)).wallet == s.db.withdrawals[wid].wallet
      && EntryOf(s, WithdrawKey(wid)).amount == -(s.db.withdrawals[wid].amount as int)
  {
    ReachableInv(env, s);
    if wid in s.db.withdrawals {
      assert RowOk(s, wid);
      GuardNamesItsEntry(env, s, WithdrawKey(wid), "", 0);
    }
  }

  /** `completed` means the rail paid; `reversed` means one credit of exactly the debited amount, to the
      debited wallet, is in the ledger under the withdrawal's own reversal key. */
  lemma WithdrawalOutcomes(env: Env, s: State, wid: WithdrawalId)
    requires Reachable(env, s) && wid in s.db.withdrawals
    ensures s.db.withdrawals[wid].status == Completed ==> wid in s.payouts && s.payouts[wid].status == PayoutDone
    ensures s.db.withdrawals[wid].status == Reversed ==> ReverseKey(wid) in s.db.guards
    ensures ReverseKey(wid) in s.db.guards ==>
      GuardOk(s, ReverseKey(wid)) && EntryOf(s, ReverseKey(wid)).wallet == s.db.withdrawals[wid].wallet
      && EntryOf(s, ReverseKey(wid)).amount == s.db.withdrawals[wid].amount
  {
    ReachableInv(env, s);
    assert RowOk(s, wid);
    if ReverseKey(wid) in s.db.guards {
      GuardNamesItsEntry(env, s, ReverseKey(wid), "", 0);
    }
  }

  lemma AskOfStep(env: Env, c: CallId, a: Action, s: State)
    requires a.AskPayout? && Enabled(env, c, a, s)
    ensures a.wid in s.payer && a.wid in Effect(env, c, a, s).payoutAsks
  {
  }

  /** The rail is asked to pay a withdrawal at most once in a whole run. */
  lemma PayoutAskedOnce(env: Env, events: seq<Event>, states: seq<State>, i: nat, j: nat)
    requires IsRun(env, events, states) && i < j < |events| && events[i].action.AskPayout? && events[j].action.AskPayout?
    ensures events[i].action.wid != events[j].action.wid
  {
    StepOf(env, events, states, i);
    StepOf(env, events, states, j);
    AskOfStep(env, events[i].caller, events[i].action, states[i]);
    AskOfStep(env, events[j].caller, events[j].action, states[j]);
    RunGrows(env, events, states, i + 1, j);
    RunInv(env, events, states, j);
    AskedMayNotAsk(env, states[j], events[j].action.wid);
  }

  lemma AskedMayNotAsk(env: Env, s: State, wid: WithdrawalId)
    requires RowsInv(env, s) && wid in s.payer
    ensures wid !in s.payoutAsks
  {
  }

  // ---- deposits ----

  /** Of one deposit at most one of the credit and the rejection ever commits, in every interleaving;
      `refunded` means the rail accepted the refund; and all refund requests ask the paid amount. */
  lemma CreditedOrRejected(env: Env, s: State, txid: Txid)
    requires Reachable(env, s)
    ensures DepositKey(txid) in s.db.guards ==> txid !in s.rejected
    ensures txid in s.db.deposits && s.db.deposits[txid].status == Refunded ==> txid in s.refunded
    ensures txid in s.refunded ==> exists amount: nat :: (txid, amount) in s.refundAsks
    ensures forall amount: nat :: (txid, amount) in s.refundAsks ==> txid in s.charges && s.charges[txid].paid == Some(amount)
  {
    ReachableInv(env, s);
    assert DepositKey(txid) in s.db.guards ==> CreditOk(s, txid);
    assert txid in s.db.deposits ==> DepositOk(s, txid);
    forall amount: nat | (txid, amount) in s.refundAsks ensures txid in s.charges && s.charges[txid].paid == Some(amount) {
      assert RefundAskOk(s, (txid, amount));
    }
  }

  /** A deposit's owner, wallet and amount never change, and every charge opened for it carries that amount. */
  lemma ReservedAmountIsFinal(env: Env, events: seq<Event>, states: seq<State>, i: nat, j: nat, txid: Txid, amount: nat)
    requires IsRun(env, events, states) && i <= j <= |events| && txid in states[i].db.deposits
    ensures txid in states[j].db.deposits && SameDeposit(states[j].db.deposits[txid], states[i].db.deposits[txid])
    ensures (txid, amount) in states[j].chargeAsks ==> amount == states[i].db.deposits[txid].amount
  {
    RunGrows(env, events, states, i, j);
    RunInv(env, events, states, j);
    assert (txid, amount) in states[j].chargeAsks ==> states[j].db.deposits[(txid, amount).0].amount == amount;
  }

  // ---- money ----

  /** The real-money equation, term by term, in every reachable state. */
  lemma RealMoneyEquation(env: Env, s: State, w: WalletId)
    requires Reachable(env, s) && w in s.db.wallets && s.db.wallets[w].kind == Real
    ensures s.db.wallets[w].balance == Deposited(s, w) - Withdrawn(s, w) - Billed(s, w) - HeldOut(s, w) + CashedOut(s, w)
  {
    ReachableInv(env, s);
  }

  /** Sandbox play moves no term of any real wallet. */
  lemma SandboxMovesNoRealMoney(env: Env, c: CallId, s: State, f: Flow, read: Snapshot, sk: SortKey, w: WalletId)
    requires Reachable(env, s) && f.MoveSandbox? && Known(env, s, f) && Commits(s, MutationOf(env, f), read, sk)
    requires w in s.db.wallets && s.db.wallets[w].kind == Real
    ensures var s' := AfterCommit(s, MutationOf(env, f), read, sk);
            && s'.db.wallets[w] == s.db.wallets[w]
            && Deposited(s', w) == Deposited(s, w) && Withdrawn(s', w) == Withdrawn(s, w) && Billed(s', w) == Billed(s, w)
            && HeldOut(s', w) == HeldOut(s, w) && CashedOut(s', w) == CashedOut(s, w)
  {
    ReachableInv(env, s);
    var m := MutationOf(env, f);
    DepositsAfterCommit(env, s, f, read, sk, w);
    WithdrawalsAfterCommit(env, s, f, read, sk, w);
    HoldsAfterCommit(env, s, f, read, sk, w);
    BillingAfterCommit(s, m, read, sk, w);
    CashoutAfterCommit(s, m, read, sk, w);
  }

  // ---- holds ----

  /** A hold leaves `held` at most once: the change is made by the commit that credits it, and no later action
      changes it again. */
  lemma HoldResolvedOnce(env: Env, events: seq<Event>, states: seq<State>, i: nat, j: nat, id: HoldId)
    requires IsRun(env, events, states) && i < j <= |events| && id in states[i].db.holds
    ensures id in states[i + 1].db.holds && id in states[j].db.holds
    ensures states[i + 1].db.holds[id].status != states[i].db.holds[id].status ==>
              && states[i].db.holds[id].status == Held && ResolvedBy(events[i].action, states[i], states[i + 1], id)
              && states[j].db.holds[id] == states[i + 1].db.holds[id]
  {
    StepOf(env, events, states, i);
    LeavesHeldWithItsCredit(env, events[i].caller, events[i].action, states[i], id);
    RunGrows(env, events, states, i + 1, j);
    if states[i + 1].db.holds[id].status != Held {
      HoldStays(states[i + 1], states[j], id);
    }
  }

  /** The action is the release of this hold, or a cash-out by its owner that settles it. */
  ghost predicate ResolvedBy(a: Action, s: State, s': State, id: HoldId)
    requires id in s.db.holds && id in s'.db.holds
  {
    && a.Post?
    && ((a.flow.ReleaseHold? && a.flow.id == id && s'.db.holds[id].status == Released)
        || (a.flow.Cashout? && id in a.flow.ids && a.flow.user == s.db.holds[id].user && s'.db.holds[id].status == Settled))
  }

  lemma HoldStays(s: State, s': State, id: HoldId)
    requires Later(s, s') && id in s.db.holds && s.db.holds[id].status != Held
    ensures id in s'.db.holds && s'.db.holds[id] == s.db.holds[id]
  {
  }

  lemma StepOf(env: Env, events: seq<Event>, states: seq<State>, i: nat)
    requires IsRun(env, events, states) && i < |events|
    ensures Enabled(env, events[i].caller, events[i].action, states[i])
    ensures states[i + 1] == Effect(env, events[i].caller, events[i].action, states[i])
  {
  }

  /** A release credits the whole hold to its owner's real wallet, even when the hold's row names another
      wallet; and what a user's releases and cash-outs credited never exceeds what the user's holds reserved. */
  lemma HoldsConserve(env: Env, s: State, user: UserId, id: HoldId)
    requires Reachable(env, s)
    ensures id in s.db.holds && s.db.holds[id].status == Released ==>
      ReleaseKey(id) in s.db.guards && OwnsWallet(s, s.db.holds[id].user, Real, s.db.guards[ReleaseKey(id)].wallet)
      && BookedAmount(s, s.db.guards[ReleaseKey(id)].wallet, ReleaseKey(id)) == s.db.holds[id].amount
    ensures CreditedTo(s, user) + ReleasedTo(s, user) <= ReservedBy(s, user)
  {
    ReachableInv(env, s);
    CreditsWithinReserved(s, user);
    if id in s.db.holds && s.db.holds[id].status == Released {
      assert HoldOk(s, id) && ReleaseOk(s, id);
    }
  }

  // ---- counters ----

  /** The stored day is never in the future, its deposit sum is exactly what was credited on that day, and
      no counter is ever past its limit. */
  lemma CountersExact(env: Env, s: State, user: UserId)
    requires Calendar(env) && Reachable(env, s) && user in s.db.counters
    ensures s.db.counters[user].day <= env.dayOf(s.clock)
    ensures s.db.counters[user].depositSum == DepositedOn(s, user, s.db.counters[user].day)
    ensures Owner(user, Real) in s.db.markers && s.db.markers[Owner(user, Real)] in s.db.wallets
    ensures WithinLimits(s.db.counters[user], LimitsOf(s.db, s.db.markers[Owner(user, Real)]))
  {
    ReachableInv(env, s);
    assert CounterOk(env, s, user);
  }

  /** The values a counter write installs, whichever action makes it. */
  lemma DayOfStep(env: Env, c: CallId, a: Action, s: State, user: UserId)
    requires Enabled(env, c, a, s) && user in s.db.counters
    ensures user in Effect(env, c, a, s).db.counters && s.db.counters[user].day <= Effect(env, c, a, s).db.counters[user].day
  {
    if a.Post? {
      DayOfPost(env, s, a.flow, a.read, a.sk, user);
    }
  }

  lemma DayOfPost(env: Env, s: State, f: Flow, read: Snapshot, sk: SortKey, user: UserId)
    requires Known(env, s, f) && Commits(s, MutationOf(env, f), read, sk) && user in s.db.counters
    ensures var s' := AfterCommit(s, MutationOf(env, f), read, sk);
            user in s'.db.counters && s.db.counters[user].day <= s'.db.counters[user].day
  {
    hide Commits;
    Footprint(env, f);
    if f.ConfirmDeposit? {
      CounterCommits(env, s, f, read, sk, f.deposit.user);
    } else if f.PayOut? {
      CounterCommits(env, s, f, read, sk, f.withdrawal.user);
    }
  }

  /** A user's stored day never goes back. */
  lemma {:induction false} DayNeverGoesBack(env: Env, events: seq<Event>, states: seq<State>, i: nat, j: nat, user: UserId)
    requires IsRun(env, events, states) && i <= j <= |events| && user in states[i].db.counters
    ensures user in states[j].db.counters && states[i].db.counters[user].day <= states[j].db.counters[user].day
    decreases j
  {
    if i < j {
      DayNeverGoesBack(env, events, states, i, j - 1, user);
      DayOfStep(env, events[j - 1].caller, events[j - 1].action, states[j - 1], user);
    }
  }

  lemma SlotOfStep(env: Env, c: CallId, a: Action, s: State)
    requires a.MarkReversed? && a.slot.Some? && Enabled(env, c, a, s)
    ensures s.db.withdrawals[a.wid].status != Reversed && a.wid in Effect(env, c, a, s).slotsReturned
  {
  }

  /** The slot of a withdrawal is given back at most once in a whole run. */
  lemma SlotGivenBackOnce(env: Env, events: seq<Event>, states: seq<State>, i: nat, j: nat)
    requires SlotsExact(env) && IsRun(env, events, states) && i < j < |events|
    requires events[i].action.MarkReversed? && events[i].action.slot.Some? && events[j].action.MarkReversed?
        && events[j].action.slot.Some?
    ensures events[i].action.wid != events[j].action.wid
  {
    StepOf(env, events, states, i);
    StepOf(env, events, states, j);
    SlotOfStep(env, events[i].caller, events[i].action, states[i]);
    SlotOfStep(env, events[j].caller, events[j].action, states[j]);
    RunGrows(env, events, states, i + 1, j);
    RunInv(env, events, states, j);
  }

  /** The day's withdrawal count and sum are exactly the day's withdrawals whose slot was not given back. */
  lemma SlotsExactlyTaken(env: Env, s: State, user: UserId)
    requires SlotsExact(env) && Reachable(env, s) && user in s.db.counters
    ensures s.db.counters[user].withdrawCount == Taken(env, s, user, s.db.counters[user].day, OfCount)
    ensures s.db.counters[user].withdrawSum == Taken(env, s, user, s.db.counters[user].day, OfAmount)
  {
    ReachableInv(env, s);
    assert SlotsOk(env, s, user);
    assert Counted(s.db.counters[user], OfCount) == Taken(env, s, user, s.db.counters[user].day, OfCount);
    assert Counted(s.db.counters[user], OfAmount) == Taken(env, s, user, s.db.counters[user].day, OfAmount);
  }

  // ---- wallets ----

  /** One wallet per user and type, and one marker per wallet; nobody's wallet is ever replaced. */
  lemma OneWalletPerOwner(env: Env, events: seq<Event>, states: seq<State>, i: nat, j: nat, w: WalletId, v: WalletId)
    requires IsRun(env, events, states) && i <= j <= |events| && w in states[i].db.wallets && v in states[j].db.wallets
    requires states[i].db.wallets[w].user == states[j].db.wallets[v].user
        && states[i].db.wallets[w].kind == states[j].db.wallets[v].kind
    ensures v == w
    ensures OwnsWallet(states[j], states[i].db.wallets[w].user, states[i].db.wallets[w].kind, w)
  {
    RunInv(env, events, states, i);
    RunInv(env, events, states, j);
    RunGrows(env, events, states, i, j);
    SameOwnerSameWallet(states[i], states[j], w, v);
  }

  lemma SameOwnerSameWallet(s: State, s': State, w: WalletId, v: WalletId)
    requires MarkersInv(s) && MarkersInv(s') && Later(s, s') && w in s.db.wallets && v in s'.db.wallets
    requires s.db.wallets[w].user == s'.db.wallets[v].user && s.db.wallets[w].kind == s'.db.wallets[v].kind
    ensures v == w && OwnsWallet(s', s.db.wallets[w].user, s.db.wallets[w].kind, w)
  {
    assert OwnsWallet(s, s.db.wallets[w].user, s.db.wallets[w].kind, w);
    assert OwnsWallet(s', s'.db.wallets[v].user, s'.db.wallets[v].kind, v);
  }

  // ---- promises ----

  /** A promise the environment makes only leaves runs out: a run in which every withdrawal is counted on its
      creation day and no reversal credit fails is the same run with and without the promise. */
  lemma PromisesOnlyLeaveRunsOut(env: Env, events: seq<Event>, states: seq<State>)
    requires IsRun(env.(sameDay := false, creditsSucceed := false), events, states)
    requires forall i :: 0 <= i < |events| ==> KeepsPromises(env, events[i].action)
    ensures IsRun(env.(sameDay := true, creditsSucceed := true), events, states)
  {
    var weak, strong := env.(sameDay := false, creditsSucceed := false), env.(sameDay := true, creditsSucceed := true);
    forall i | 0 <= i < |events|
      ensures Enabled(strong, events[i].caller, events[i].action, states[i])
      ensures states[i + 1] == Effect(strong, events[i].caller, events[i].action, states[i])
    {
      assert KeepsPromises(env, events[i].action);
      StepUnderPromises(env, events[i].caller, events[i].action, states[i]);
    }
  }

  predicate KeepsPromises(env: Env, a: Action) {
    && (a.Post? && a.flow.PayOut? ==> env.dayOf(a.flow.now) == env.dayOf(a.flow.withdrawal.createdAt))
    && (a.SetWithdrawal? ==> a.status != ReversalFailed)
  }

  lemma StepUnderPromises(env: Env, c: CallId, a: Action, s: State)
    requires KeepsPromises(env, a) && Enabled(env.(sameDay := false, creditsSucceed := false), c, a, s)
    ensures Enabled(env.(sameDay := true, creditsSucceed := true), c, a, s)
    ensures Effect(env.(sameDay := true, creditsSucceed := true), c, a, s)
        == Effect(env.(sameDay := false, creditsSucceed := false), c, a, s)
  {
  }
}
