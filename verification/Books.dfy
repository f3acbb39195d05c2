/** The real-money equation: what a real wallet holds, told from the lifecycle rows instead of its entries. */
module Books {
  import opened Rows
  import opened Store
  import opened System
  import opened Ledger
  import opened Withdrawals
  import opened Deposits
  import opened Markers
  import opened Sums

  // ---- the terms of wallet w ----

  /** A deposit counts once its credit committed. */
  ghost function DepositTerm(s: State, w: WalletId, txid: Txid): int {
    if txid in s.db.deposits && DepositKey(txid) in s.db.guards && s.db.deposits[txid].wallet == w then s.db.deposits[txid].amount else 0
  }

  /** A withdrawal counts until it is credited back. */
  ghost function WithdrawalTerm(s: State, w: WalletId, wid: WithdrawalId): int {
    if wid in s.db.withdrawals && ReverseKey(wid) !in s.db.guards && s.db.withdrawals[wid].wallet == w then s.db.withdrawals[wid].amount else 0
  }

  /** The amount booked under a guard of wallet w. */
  ghost function BookedAmount(s: State, w: WalletId, k: IdemKey): int {
    if k in s.db.guards && s.db.guards[k].wallet == w && LedgerKey(w, s.db.guards[k].sk) in s.db.ledger
    then s.db.ledger[LedgerKey(w, s.db.guards[k].sk)].amount else 0
  }

  ghost function BillingTerm(s: State, w: WalletId, k: IdemKey): int {
    if k.BillingKey? then -BookedAmount(s, w, k) else 0
  }

  ghost function CashoutTerm(s: State, w: WalletId, k: IdemKey): int {
    if k.CashoutKey? then BookedAmount(s, w, k) else 0
  }

  /** What a hold keeps out of the wallet: its amount while held and after it settled, nothing once
      released. A hold placed on a wallet that was later retired was never taken from w, so its release
      brings that amount in. */
  ghost function HoldTerm(s: State, w: WalletId, id: HoldId): int {
    if id !in s.db.holds then 0
    else
      var row := s.db.holds[id];
      if row.wallet == w then (if row.status == Released then 0 else row.amount)
      else if row.status == Released && OwnsWallet(s, row.user, Real, w) then 0 - row.amount as int
      else 0
  }

  ghost function Deposited(s: State, w: WalletId): int { Sum(s.db.deposits.Keys, txid => DepositTerm(s, w, txid)) }
  ghost function Withdrawn(s: State, w: WalletId): int { Sum(s.db.withdrawals.Keys, wid => WithdrawalTerm(s, w, wid)) }
  ghost function Billed(s: State, w: WalletId): int { Sum(s.db.guards.Keys, k => BillingTerm(s, w, k)) }
  ghost function CashedOut(s: State, w: WalletId): int { Sum(s.db.guards.Keys, k => CashoutTerm(s, w, k)) }
  ghost function HeldOut(s: State, w: WalletId): int { Sum(s.db.holds.Keys, id => HoldTerm(s, w, id)) }

  ghost predicate Balanced(s: State, w: WalletId)
    requires w in s.db.wallets
  {
    s.db.wallets[w].balance == Deposited(s, w) - Withdrawn(s, w) - Billed(s, w) - HeldOut(s, w) + CashedOut(s, w)
  }

  ghost predicate BooksInv(s: State) {
    forall w :: w in s.db.wallets && s.db.wallets[w].kind == Real ==> Balanced(s, w)
  }

  ghost predicate HoldOk(s: State, id: HoldId)
    requires id in s.db.holds
  {
    && (s.db.holds[id].wallet in s.db.wallets ==> OwnsWallet(s, s.db.holds[id].user, Real, s.db.holds[id].wallet))
    && (s.db.holds[id].status == Released <==> ReleaseKey(id) in s.db.guards)
    && (s.db.holds[id].status == Released ==> Owner(s.db.holds[id].user, Real) in s.db.markers)
  }

  /** A hold on a live wallet is on its owner's real wallet; it is released exactly when its credit committed. */
  ghost predicate HoldsInv(s: State) {
    && (forall id :: id in s.db.holds ==> HoldOk(s, id))
    && (forall id :: ReleaseKey(id) in s.db.guards ==> id in s.db.holds)
  }

  // ---- how a commit moves the terms ----

  lemma BookedStays(s: State, m: Mutation, read: Snapshot, sk: SortKey, w: WalletId, k: IdemKey)
    requires LedgerInv(s) && Commits(s, m, read, sk) && k != m.key
    ensures BookedAmount(AfterCommit(s, m, read, sk), w, k) == BookedAmount(s, w, k)
  {
    if k in s.db.guards {
      assert GuardOk(s, k);
    }
  }

  lemma NewlyBooked(s: State, m: Mutation, read: Snapshot, sk: SortKey, w: WalletId)
    requires Commits(s, m, read, sk)
    ensures BookedAmount(s, w, m.key) == 0
    ensures BookedAmount(AfterCommit(s, m, read, sk), w, m.key) == if m.wallet == w then Signed(m) else 0
  {
  }

  lemma BillingAfterCommit(s: State, m: Mutation, read: Snapshot, sk: SortKey, w: WalletId)
    requires LedgerInv(s) && Commits(s, m, read, sk)
    ensures Billed(AfterCommit(s, m, read, sk), w) == Billed(s, w) - (if m.key.BillingKey? && m.wallet == w then Signed(m) else 0)
  {
    var s' := AfterCommit(s, m, read, sk);
    forall k ensures k != m.key ==> BookedAmount(s', w, k) == BookedAmount(s, w, k) {
      if k != m.key {
        BookedStays(s, m, read, sk, w, k);
      }
    }
    NewlyBooked(s, m, read, sk, w);
    SumChange(s.db.guards.Keys, s'.db.guards.Keys, k => BillingTerm(s, w, k), k => BillingTerm(s', w, k), m.key);
  }

  lemma CashoutAfterCommit(s: State, m: Mutation, read: Snapshot, sk: SortKey, w: WalletId)
    requires LedgerInv(s) && Commits(s, m, read, sk)
    ensures CashedOut(AfterCommit(s, m, read, sk), w)
        == CashedOut(s, w) + (if m.key.CashoutKey? && m.wallet == w then Signed(m) else 0)
  {
    var s' := AfterCommit(s, m, read, sk);
    forall k ensures k != m.key ==> BookedAmount(s', w, k) == BookedAmount(s, w, k) {
      if k != m.key {
        BookedStays(s, m, read, sk, w, k);
      }
    }
    NewlyBooked(s, m, read, sk, w);
    SumChange(s.db.guards.Keys, s'.db.guards.Keys, k => CashoutTerm(s, w, k), k => CashoutTerm(s', w, k), m.key);
  }

  lemma DepositsAfterConfirm(env: Env, s: State, f: Flow, read: Snapshot, sk: SortKey, w: WalletId)
    requires f.ConfirmDeposit? && Known(env, s, f) && Commits(s, MutationOf(env, f), read, sk)
    ensures Deposited(AfterCommit(s, MutationOf(env, f), read, sk), w)
        == Deposited(s, w) + (if f.deposit.wallet == w then f.deposit.amount else 0)
  {
    var s' := AfterCommit(s, MutationOf(env, f), read, sk);
    ConfirmMovesRow(env, s, f, read, sk);
    SumChange(s.db.deposits.Keys, s'.db.deposits.Keys, txid => DepositTerm(s, w, txid), txid => DepositTerm(s', w, txid), f.txid);
  }

  lemma DepositsAfterOther(s: State, m: Mutation, read: Snapshot, sk: SortKey, w: WalletId)
    requires Commits(s, m, read, sk) && m.deposits == map[] && !m.key.DepositKey?
    ensures Deposited(AfterCommit(s, m, read, sk), w) == Deposited(s, w)
  {
    var s' := AfterCommit(s, m, read, sk);
    SumSame(s.db.deposits.Keys, txid => DepositTerm(s, w, txid), txid => DepositTerm(s', w, txid));
  }

  lemma WithdrawalsAfterPayOut(env: Env, s: State, f: Flow, read: Snapshot, sk: SortKey, w: WalletId)
    requires RowsInv(env, s) && f.PayOut? && Commits(s, MutationOf(env, f), read, sk)
    ensures Withdrawn(AfterCommit(s, MutationOf(env, f), read, sk), w)
        == Withdrawn(s, w) + (if f.withdrawal.wallet == w then f.withdrawal.amount else 0)
  {
    hide Known, Commits, StampedAfter, RowOk;
    var s' := AfterCommit(s, MutationOf(env, f), read, sk);
    PayOutAddsRow(env, s, f, read, sk);
    SumChange(s.db.withdrawals.Keys, s'.db.withdrawals.Keys, wid => WithdrawalTerm(s, w, wid), wid => WithdrawalTerm(s', w, wid), f.wid);
  }

  lemma WithdrawalsAfterReverse(env: Env, s: State, f: Flow, read: Snapshot, sk: SortKey, w: WalletId)
    requires f.Reverse? && Known(env, s, f) && Commits(s, MutationOf(env, f), read, sk)
    ensures Withdrawn(AfterCommit(s, MutationOf(env, f), read, sk), w)
        == Withdrawn(s, w) - (if f.withdrawal.wallet == w then f.withdrawal.amount else 0)
  {
    var s' := AfterCommit(s, MutationOf(env, f), read, sk);
    SumChange(s.db.withdrawals.Keys, s'.db.withdrawals.Keys, wid => WithdrawalTerm(s, w, wid), wid => WithdrawalTerm(s', w, wid), f.wid);
  }

  lemma WithdrawalsAfterOther(s: State, m: Mutation, read: Snapshot, sk: SortKey, w: WalletId)
    requires Commits(s, m, read, sk) && m.withdrawals == map[] && !m.key.ReverseKey?
    ensures Withdrawn(AfterCommit(s, m, read, sk), w) == Withdrawn(s, w)
  {
    var s' := AfterCommit(s, m, read, sk);
    SumSame(s.db.withdrawals.Keys, wid => WithdrawalTerm(s, w, wid), wid => WithdrawalTerm(s', w, wid));
  }

  lemma OneTermMoves(s: State, s': State, w: WalletId, id: HoldId, row: HoldRow)
    requires s'.db.holds == s.db.holds[id := row]
    requires forall user :: OwnsWallet(s, user, Real, w) <==> OwnsWallet(s', user, Real, w)
    ensures HeldOut(s', w) == HeldOut(s, w) - HoldTerm(s, w, id) + HoldTerm(s', w, id)
  {
    assert s'.db.holds.Keys == s.db.holds.Keys + {id};
    SumChange(s.db.holds.Keys, s'.db.holds.Keys, h => HoldTerm(s, w, h), h => HoldTerm(s', w, h), id);
  }

  lemma OneHold(t: map<HoldId, HoldRow>, id: HoldId, op: HoldOp)
    requires HoldCond(t, id, op)
    ensures HoldsAfter(t, map[id := op]) == t[id := HoldAfter(t, id, op)]
  {
  }

  lemma HoldsAfterPlace(env: Env, s: State, f: Flow, read: Snapshot, sk: SortKey, w: WalletId)
    requires f.PlaceHold? && Known(env, s, f) && Commits(s, MutationOf(env, f), read, sk)
    ensures AfterCommit(s, MutationOf(env, f), read, sk).db.holds == s.db.holds[f.id := f.hold] && f.id !in s.db.holds
    ensures HeldOut(AfterCommit(s, MutationOf(env, f), read, sk), w)
        == HeldOut(s, w) + (if f.hold.wallet == w then f.hold.amount else 0)
  {
    var m := MutationOf(env, f);
    var s' := AfterCommit(s, m, read, sk);
    assert f.id in m.holds && HoldCond(s.db.holds, f.id, m.holds[f.id]);
    OneHold(s.db.holds, f.id, m.holds[f.id]);
    OneTermMoves(s, s', w, f.id, f.hold);
  }

  lemma ReleaseMovesHold(env: Env, s: State, f: Flow, read: Snapshot, sk: SortKey)
    requires f.ReleaseHold? && Commits(s, MutationOf(env, f), read, sk)
    ensures f.id in s.db.holds && s.db.holds[f.id].status == Held
    ensures AfterCommit(s, MutationOf(env, f), read, sk).db.holds == s.db.holds[f.id := s.db.holds[f.id].(status := Released)]
  {
    var m := MutationOf(env, f);
    assert f.id in m.holds && HoldCond(s.db.holds, f.id, m.holds[f.id]);
    OneHold(s.db.holds, f.id, m.holds[f.id]);
  }

  lemma ReleasedTerm(env: Env, s: State, f: Flow, read: Snapshot, sk: SortKey, w: WalletId)
    requires HoldsInv(s) && MarkersInv(s) && w in s.db.wallets && s.db.wallets[w].kind == Real
    requires f.ReleaseHold? && KnowsHold(s, f.id, f.hold) && OwnsWallet(s, f.hold.user, Real, f.target)
    requires Commits(s, MutationOf(env, f), read, sk)
    ensures HoldTerm(AfterCommit(s, MutationOf(env, f), read, sk), w, f.id)
        == HoldTerm(s, w, f.id) - (if f.target == w then f.hold.amount else 0)
  {
    hide Commits, MutationOf, MarkersInv;
    ReleaseMovesHold(env, s, f, read, sk);
    assert HoldOk(s, f.id);
  }

  /** A release credits the owner's real wallet in full, whichever wallet the row names. */
  lemma HoldsAfterRelease(env: Env, s: State, f: Flow, read: Snapshot, sk: SortKey, w: WalletId)
    requires HoldsInv(s) && MarkersInv(s) && w in s.db.wallets && s.db.wallets[w].kind == Real
    requires f.ReleaseHold? && Known(env, s, f) && Commits(s, MutationOf(env, f), read, sk)
    ensures HeldOut(AfterCommit(s, MutationOf(env, f), read, sk), w)
        == HeldOut(s, w) - (if f.target == w then f.hold.amount else 0)
  {
    var s' := AfterCommit(s, MutationOf(env, f), read, sk);
    ReleaseMovesHold(env, s, f, read, sk);
    ReleasedTerm(env, s, f, read, sk, w);
    OneTermMoves(s, s', w, f.id, s.db.holds[f.id].(status := Released));
  }

  lemma CashoutFindsHeld(env: Env, s: State, f: Flow, read: Snapshot, sk: SortKey, id: HoldId)
    requires f.Cashout? && Commits(s, MutationOf(env, f), read, sk) && id in f.ids
    ensures id in s.db.holds && s.db.holds[id].status == Held && s.db.holds[id].user == f.user && s.db.holds[id].table == f.table
  {
    var m := MutationOf(env, f);
    assert id in m.holds && HoldCond(s.db.holds, id, m.holds[id]);
  }

  lemma SettledTable(t: map<HoldId, HoldRow>, user: UserId, table: string, ids: seq<HoldId>)
    requires forall id :: id in ids ==> HoldCond(t, id, MoveOwnedHold(Held, Settled, user, table))
    ensures HoldsAfter(t, SettleOps(user, table, ids))
        == map id | id in t :: if id in ids then t[id].(status := Settled) else t[id]
  {
  }

  /** A cash-out settles exactly the listed holds. */
  lemma CashoutSettles(env: Env, s: State, f: Flow, read: Snapshot, sk: SortKey)
    requires f.Cashout? && Commits(s, MutationOf(env, f), read, sk)
    ensures AfterCommit(s, MutationOf(env, f), read, sk).db.holds
            == map id | id in s.db.holds :: if id in f.ids then s.db.holds[id].(status := Settled) else s.db.holds[id]
  {
    forall id | id in f.ids ensures HoldCond(s.db.holds, id, MoveOwnedHold(Held, Settled, f.user, f.table)) {
      CashoutFindsHeld(env, s, f, read, sk, id);
    }
    SettledTable(s.db.holds, f.user, f.table, f.ids);
  }

  lemma HoldsAfterCashout(env: Env, s: State, f: Flow, read: Snapshot, sk: SortKey, w: WalletId)
    requires f.Cashout? && Commits(s, MutationOf(env, f), read, sk)
    ensures HeldOut(AfterCommit(s, MutationOf(env, f), read, sk), w) == HeldOut(s, w)
  {
    hide Known, MutationOf, SideConditions;
    var s' := AfterCommit(s, MutationOf(env, f), read, sk);
    CashoutSettles(env, s, f, read, sk);
    assert s'.db.holds.Keys == s.db.holds.Keys;
    forall id | id in s.db.holds ensures HoldTerm(s, w, id) == HoldTerm(s', w, id) {
      if id in f.ids {
        CashoutFindsHeld(env, s, f, read, sk, id);
      }
    }
    SumSame(s.db.holds.Keys, id => HoldTerm(s, w, id), id => HoldTerm(s', w, id));
  }

  lemma HoldsAfterOther(s: State, m: Mutation, read: Snapshot, sk: SortKey, w: WalletId)
    requires Commits(s, m, read, sk) && m.holds == map[]
    ensures HeldOut(AfterCommit(s, m, read, sk), w) == HeldOut(s, w)
  {
    var s' := AfterCommit(s, m, read, sk);
    SumSame(s.db.holds.Keys, id => HoldTerm(s, w, id), id => HoldTerm(s', w, id));
  }

  // ---- the equation is kept ----

  lemma BalanceAfterCommit(s: State, m: Mutation, read: Snapshot, sk: SortKey, w: WalletId)
    requires Commits(s, m, read, sk) && w in s.db.wallets
    ensures w in AfterCommit(s, m, read, sk).db.wallets
    ensures AfterCommit(s, m, read, sk).db.wallets[w].balance
        == s.db.wallets[w].balance + (if m.wallet == w then Signed(m) else 0)
    ensures AfterCommit(s, m, read, sk).db.wallets[w].kind == s.db.wallets[w].kind
  {
  }

  lemma DepositsAfterCommit(env: Env, s: State, f: Flow, read: Snapshot, sk: SortKey, w: WalletId)
    requires Known(env, s, f) && Commits(s, MutationOf(env, f), read, sk)
    ensures Deposited(AfterCommit(s, MutationOf(env, f), read, sk), w)
            == Deposited(s, w) + (if f.ConfirmDeposit? && f.deposit.wallet == w then f.deposit.amount else 0)
  {
    Footprint(env, f);
    if f.ConfirmDeposit? {
      DepositsAfterConfirm(env, s, f, read, sk, w);
    } else {
      DepositsAfterOther(s, MutationOf(env, f), read, sk, w);
    }
  }

  /** The withdrawals' share: a debit adds its amount, a reversal takes it away. */
  ghost function WithdrawalMove(f: Flow, w: WalletId): int {
    if f.PayOut? && f.withdrawal.wallet == w then f.withdrawal.amount
    else if f.Reverse? && f.withdrawal.wallet == w then 0 - f.withdrawal.amount as int
    else 0
  }

  lemma WithdrawalsAfterCommit(env: Env, s: State, f: Flow, read: Snapshot, sk: SortKey, w: WalletId)
    requires RowsInv(env, s) && Known(env, s, f) && Commits(s, MutationOf(env, f), read, sk)
    ensures Withdrawn(AfterCommit(s, MutationOf(env, f), read, sk), w) == Withdrawn(s, w) + WithdrawalMove(f, w)
  {
    Footprint(env, f);
    if f.PayOut? {
      WithdrawalsAfterPayOut(env, s, f, read, sk, w);
    } else if f.Reverse? {
      WithdrawalsAfterReverse(env, s, f, read, sk, w);
    } else {
      WithdrawalsAfterOther(s, MutationOf(env, f), read, sk, w);
    }
  }

  ghost function HoldMove(f: Flow, w: WalletId): int {
    if f.PlaceHold? && f.hold.wallet == w then f.hold.amount
    else if f.ReleaseHold? && f.target == w then 0 - f.hold.amount as int
    else 0
  }

  lemma HoldsAfterCommit(env: Env, s: State, f: Flow, read: Snapshot, sk: SortKey, w: WalletId)
    requires HoldsInv(s) && MarkersInv(s) && w in s.db.wallets && s.db.wallets[w].kind == Real
    requires Known(env, s, f) && Commits(s, MutationOf(env, f), read, sk)
    ensures HeldOut(AfterCommit(s, MutationOf(env, f), read, sk), w) == HeldOut(s, w) + HoldMove(f, w)
  {
    Footprint(env, f);
    if f.PlaceHold? {
      HoldsAfterPlace(env, s, f, read, sk, w);
    } else if f.ReleaseHold? {
      HoldsAfterRelease(env, s, f, read, sk, w);
    } else if f.Cashout? {
      HoldsAfterCashout(env, s, f, read, sk, w);
    } else {
      HoldsAfterOther(s, MutationOf(env, f), read, sk, w);
    }
  }

  /** Every flow moves the balance by exactly what it moves the terms. */
  lemma MovesAgree(env: Env, s: State, f: Flow, w: WalletId)
    requires MarkersInv(s) && w in s.db.wallets && s.db.wallets[w].kind == Real && Known(env, s, f)
    ensures var m := MutationOf(env, f);
            (if m.wallet == w then Signed(m) else 0)
            == (if f.ConfirmDeposit? && f.deposit.wallet == w then f.deposit.amount else 0)
               - WithdrawalMove(f, w)
               + (if m.key.BillingKey? && m.wallet == w then Signed(m) else 0)
               - HoldMove(f, w)
               + (if m.key.CashoutKey? && m.wallet == w then Signed(m) else 0)
  {
  }

  lemma CommitKeepsBalanced(env: Env, s: State, f: Flow, read: Snapshot, sk: SortKey, w: WalletId)
    requires LedgerInv(s) && RowsInv(env, s) && HoldsInv(s) && MarkersInv(s)
    requires w in s.db.wallets && s.db.wallets[w].kind == Real && Balanced(s, w)
    requires Known(env, s, f) && Commits(s, MutationOf(env, f), read, sk)
    ensures w in AfterCommit(s, MutationOf(env, f), read, sk).db.wallets
        && Balanced(AfterCommit(s, MutationOf(env, f), read, sk), w)
  {
    var m := MutationOf(env, f);
    BalanceAfterCommit(s, m, read, sk, w);
    DepositsAfterCommit(env, s, f, read, sk, w);
    WithdrawalsAfterCommit(env, s, f, read, sk, w);
    HoldsAfterCommit(env, s, f, read, sk, w);
    BillingAfterCommit(s, m, read, sk, w);
    CashoutAfterCommit(s, m, read, sk, w);
    MovesAgree(env, s, f, w);
  }

  // ---- actions other than commits ----

  lemma {:induction false} BalancedFrame(s: State, s': State, w: WalletId)
    requires w in s.db.wallets && Balanced(s, w)
    requires s'.db.wallets == s.db.wallets && s'.db.markers == s.db.markers && s'.db.holds == s.db.holds
    requires s'.db.guards == s.db.guards && s'.db.ledger == s.db.ledger
    requires s'.db.deposits.Keys == s.db.deposits.Keys
    requires forall txid :: txid in s.db.deposits ==> SameDeposit(s'.db.deposits[txid], s.db.deposits[txid])
    requires s'.db.withdrawals.Keys == s.db.withdrawals.Keys
    requires forall wid :: wid in s.db.withdrawals ==> SameWithdrawal(s'.db.withdrawals[wid], s.db.withdrawals[wid])
    ensures Balanced(s', w)
  {
    SumSame(s.db.deposits.Keys, txid => DepositTerm(s, w, txid), txid => DepositTerm(s', w, txid));
    SumSame(s.db.withdrawals.Keys, wid => WithdrawalTerm(s, w, wid), wid => WithdrawalTerm(s', w, wid));
    SumSame(s.db.guards.Keys, k => BillingTerm(s, w, k), k => BillingTerm(s', w, k));
    SumSame(s.db.guards.Keys, k => CashoutTerm(s, w, k), k => CashoutTerm(s', w, k));
    SumSame(s.db.holds.Keys, id => HoldTerm(s, w, id), id => HoldTerm(s', w, id));
  }

  lemma PutDepositKeepsBalanced(s: State, txid: Txid, row: DepositRow, w: WalletId)
    requires CreditsOk(s) && CanPutDeposit(s, txid, row) && w in s.db.wallets && Balanced(s, w)
    ensures Balanced(AfterPutDeposit(s, txid, row), w)
  {
    var s' := AfterPutDeposit(s, txid, row);
    assert DepositKey(txid) in s.db.guards ==> CreditOk(s, txid);
    assert s'.db.deposits.Keys == s.db.deposits.Keys + {txid};
    SumChange(s.db.deposits.Keys, s'.db.deposits.Keys, id => DepositTerm(s, w, id), id => DepositTerm(s', w, id), txid);
    SumSame(s.db.withdrawals.Keys, wid => WithdrawalTerm(s, w, wid), wid => WithdrawalTerm(s', w, wid));
    SumSame(s.db.guards.Keys, k => BillingTerm(s, w, k), k => BillingTerm(s', w, k));
    SumSame(s.db.guards.Keys, k => CashoutTerm(s, w, k), k => CashoutTerm(s', w, k));
    SumSame(s.db.holds.Keys, id => HoldTerm(s, w, id), id => HoldTerm(s', w, id));
  }

  /** Opening a wallet moves no term of another one. */
  lemma OpenKeepsBalanced(s: State, user: UserId, kind: WalletType, id: WalletId, overrides: Overrides, w: WalletId)
    requires CanOpenWallet(s, user, kind, id) && w in s.db.wallets && w != id && Balanced(s, w)
    ensures Balanced(AfterOpenWallet(s, user, kind, id, overrides), w)
  {
    var s' := AfterOpenWallet(s, user, kind, id, overrides);
    SumSame(s.db.deposits.Keys, txid => DepositTerm(s, w, txid), txid => DepositTerm(s', w, txid));
    SumSame(s.db.withdrawals.Keys, wid => WithdrawalTerm(s, w, wid), wid => WithdrawalTerm(s', w, wid));
    SumSame(s.db.guards.Keys, k => BillingTerm(s, w, k), k => BillingTerm(s', w, k));
    SumSame(s.db.guards.Keys, k => CashoutTerm(s, w, k), k => CashoutTerm(s', w, k));
    SumSame(s.db.holds.Keys, h => HoldTerm(s, w, h), h => HoldTerm(s', w, h));
  }

  /** No row names a wallet before it exists. */
  lemma NoRowsYet(env: Env, s: State, user: UserId, kind: WalletType, id: WalletId, overrides: Overrides)
    requires LedgerInv(s) && RowsInv(env, s) && DepositsInv(s) && CanOpenWallet(s, user, kind, id)
    ensures var s' := AfterOpenWallet(s, user, kind, id, overrides);
            (forall txid :: DepositTerm(s', id, txid) == 0) && (forall wid :: WithdrawalTerm(s', id, wid) == 0)
  {
    var s' := AfterOpenWallet(s, user, kind, id, overrides);
    forall txid ensures DepositTerm(s', id, txid) == 0 {
      assert txid in s.db.deposits ==> DepositOk(s, txid);
    }
    forall wid ensures WithdrawalTerm(s', id, wid) == 0 {
      if wid in s.db.withdrawals {
        assert RowOk(s, wid);
        assert LedgerRowOk(s, LedgerKey(s.db.withdrawals[wid].wallet, s.db.guards[WithdrawKey(wid)].sk));
      }
    }
  }

  lemma NothingBookedYet(s: State, user: UserId, kind: WalletType, id: WalletId, overrides: Overrides)
    requires LedgerInv(s) && CanOpenWallet(s, user, kind, id)
    ensures forall k :: BookedAmount(AfterOpenWallet(s, user, kind, id, overrides), id, k) == 0
  {
    forall k ensures BookedAmount(AfterOpenWallet(s, user, kind, id, overrides), id, k) == 0 {
      if k in s.db.guards {
        assert GuardOk(s, k) && LedgerRowOk(s, LedgerKey(s.db.guards[k].wallet, s.db.guards[k].sk));
      }
    }
  }

  lemma NoHoldsYet(s: State, user: UserId, kind: WalletType, id: WalletId, overrides: Overrides)
    requires HoldsInv(s) && MarkersInv(s) && CanOpenWallet(s, user, kind, id)
    ensures forall h :: HoldTerm(AfterOpenWallet(s, user, kind, id, overrides), id, h) == 0
  {
    forall h ensures HoldTerm(AfterOpenWallet(s, user, kind, id, overrides), id, h) == 0 {
      assert h in s.db.holds ==> HoldOk(s, h);
    }
  }

  lemma NewWalletBalanced(env: Env, s: State, user: UserId, kind: WalletType, id: WalletId, overrides: Overrides)
    requires LedgerInv(s) && RowsInv(env, s) && DepositsInv(s) && MarkersInv(s) && HoldsInv(s) && CanOpenWallet(s, user, kind, id)
    ensures Balanced(AfterOpenWallet(s, user, kind, id, overrides), id)
  {
    var s' := AfterOpenWallet(s, user, kind, id, overrides);
    NoRowsYet(env, s, user, kind, id, overrides);
    NothingBookedYet(s, user, kind, id, overrides);
    NoHoldsYet(s, user, kind, id, overrides);
    SumOfZeros(s'.db.deposits.Keys, txid => DepositTerm(s', id, txid));
    SumOfZeros(s'.db.withdrawals.Keys, wid => WithdrawalTerm(s', id, wid));
    SumOfZeros(s'.db.guards.Keys, k => BillingTerm(s', id, k));
    SumOfZeros(s'.db.guards.Keys, k => CashoutTerm(s', id, k));
    SumOfZeros(s'.db.holds.Keys, h => HoldTerm(s', id, h));
  }

  lemma PostKeepsBalanced(env: Env, c: CallId, s: State, f: Flow, read: Snapshot, sk: SortKey, answered: bool, w: WalletId)
    requires LedgerInv(s) && RowsInv(env, s) && HoldsInv(s) && MarkersInv(s)
    requires w in s.db.wallets && s.db.wallets[w].kind == Real && Balanced(s, w)
    requires CanPost(env, c, s, f, read, sk)
    ensures w in AfterPost(env, c, s, f, read, sk, answered).db.wallets
        && Balanced(AfterPost(env, c, s, f, read, sk, answered), w)
  {
    CommitKeepsBalanced(env, s, f, read, sk, w);
    BalancedFrame(AfterCommit(s, MutationOf(env, f), read, sk), AfterPost(env, c, s, f, read, sk, answered), w);
  }

  lemma QuietAction(env: Env, c: CallId, a: Action, s: State)
    requires Enabled(env, c, a, s) && !a.Post? && !a.OpenWallet? && !a.PutDeposit?
    ensures var s' := Effect(env, c, a, s);
            && s'.db.wallets == s.db.wallets && s'.db.markers == s.db.markers && s'.db.holds == s.db.holds
            && s'.db.guards == s.db.guards && s'.db.ledger == s.db.ledger
            && s'.db.deposits.Keys == s.db.deposits.Keys && s'.db.withdrawals.Keys == s.db.withdrawals.Keys
            && (forall txid :: txid in s.db.deposits ==> SameDeposit(s'.db.deposits[txid], s.db.deposits[txid]))
            && (forall wid :: wid in s.db.withdrawals ==> SameWithdrawal(s'.db.withdrawals[wid], s.db.withdrawals[wid]))
  {
  }

  /** Every action of every call keeps the real-money equation of every real wallet. */
  lemma BooksPreserved(env: Env, c: CallId, a: Action, s: State)
    requires LedgerInv(s) && RowsInv(env, s) && DepositsInv(s) && MarkersInv(s) && HoldsInv(s) && BooksInv(s)
    requires Enabled(env, c, a, s)
    ensures BooksInv(Effect(env, c, a, s))
  {
    var s' := Effect(env, c, a, s);
    forall w | w in s'.db.wallets && s'.db.wallets[w].kind == Real ensures Balanced(s', w) {
      if a.Post? {
        BalanceAfterCommit(s, MutationOf(env, a.flow), a.read, a.sk, w);
        PostKeepsBalanced(env, c, s, a.flow, a.read, a.sk, a.answered, w);
      } else if a.OpenWallet? {
        if w == a.id {
          NewWalletBalanced(env, s, a.user, a.kind, a.id, a.overrides);
        } else {
          OpenKeepsBalanced(s, a.user, a.kind, a.id, a.overrides, w);
        }
      } else if a.PutDeposit? {
        PutDepositKeepsBalanced(s, a.txid, a.deposit, w);
      } else {
        QuietAction(env, c, a, s);
        BalancedFrame(s, s', w);
      }
    }
  }
}
