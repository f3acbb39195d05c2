/** Each action on the store is one conditional transaction: it goes through exactly when the conditions
    the code writes hold, and leaves exactly the state the action describes. */
module Transactions {
  import opened Rows
  import opened Store
  import opened System
  import opened Deposits

  lemma OneWalletOp(t: map<WalletId, Wallet>, id: WalletId, op: WalletOp)
    requires WalletCond(t, id, op)
    ensures WalletsAfter(t, map[id := op]) == t[id := WalletAfter(t, id, op)]
  {
  }

  /** The transaction of a commit leaves exactly the store `AfterCommit` describes. */
  lemma ApplyIsAfterCommit(s: State, m: Mutation, read: Snapshot, sk: SortKey)
    requires Commits(s, m, read, sk) && ConditionsHold(s.db, TxFor(m, read, sk))
    ensures Apply(s.db, TxFor(m, read, sk)) == AfterCommit(s, m, read, sk).db
  {
    OneWalletOp(s.db.wallets, m.wallet, BalanceOp(m, read));
    var noMarkers: map<Owner, WalletId> := map[];
    assert s.db.markers + noMarkers == s.db.markers;
    assert s.db.ledger + map[LedgerKey(m.wallet, sk) := EntryFor(m, read, sk)]
        == s.db.ledger[LedgerKey(m.wallet, sk) := EntryFor(m, read, sk)];
    assert s.db.guards + map[m.key := Guard(m.wallet, sk, m.hash)] == s.db.guards[m.key := Guard(m.wallet, sk, m.hash)];
  }

  /** A commit goes through exactly when every condition of its transaction holds. */
  lemma CommitIsTransaction(s: State, m: Mutation, read: Snapshot, sk: SortKey)
    requires WalletRead(s, m.wallet, read) && StampedAfter(s, m.wallet, read, sk.ts)
    ensures TransactWrite(s.db, TxFor(m, read, sk))
        == if Commits(s, m, read, sk) then Committed(AfterCommit(s, m, read, sk).db) else ConditionFailed
  {
    ConditionsAgree(s, m, read, sk);
    if Commits(s, m, read, sk) {
      ApplyIsAfterCommit(s, m, read, sk);
    }
  }

  lemma ConditionsAgree(s: State, m: Mutation, read: Snapshot, sk: SortKey)
    requires WalletRead(s, m.wallet, read) && StampedAfter(s, m.wallet, read, sk.ts)
    ensures ConditionsHold(s.db, TxFor(m, read, sk)) <==> Commits(s, m, read, sk)
  {
    var tx := TxFor(m, read, sk);
    assert m.wallet in tx.wallets && tx.wallets[m.wallet] == BalanceOp(m, read);
    assert LedgerKey(m.wallet, sk) in tx.ledger && m.key in tx.guards;
    if ConditionsHold(s.db, tx) {
      assert WalletCond(s.db.wallets, m.wallet, BalanceOp(m, read));
    }
  }

  lemma NoOps(db: Db)
    ensures db.markers + map[] == db.markers && db.ledger + map[] == db.ledger && db.guards + map[] == db.guards
  {
  }

  function MoveDepositTx(txid: Txid, from: DepositStatus, to: DepositStatus): Tx {
    EmptyTx.(deposits := map[txid := MoveDepositRow(from, to)])
  }

  /** A deposit transition goes through exactly when the row is in the status it leaves. */
  lemma MoveIsTransaction(s: State, txid: Txid, from: DepositStatus, to: DepositStatus)
    ensures TransactWrite(s.db, MoveDepositTx(txid, from, to))
            == if txid in s.db.deposits
                && s.db.deposits[txid].status == from then Committed(AfterMoveDeposit(s, txid, from, to).db) else ConditionFailed
  {
    var tx := MoveDepositTx(txid, from, to);
    NoOps(s.db);
    assert txid in tx.deposits && tx.deposits[txid] == MoveDepositRow(from, to);
    if ConditionsHold(s.db, tx) {
      assert DepositCond(s.db.deposits, txid, tx.deposits[txid]);
      OneDeposit(s.db.deposits, txid, MoveDepositRow(from, to));
    }
  }

  function PutDepositTx(txid: Txid, row: DepositRow): Tx { EmptyTx.(deposits := map[txid := PutDepositRow(row)]) }

  lemma PutIsTransaction(s: State, txid: Txid, row: DepositRow)
    ensures TransactWrite(s.db, PutDepositTx(txid, row))
            == if txid !in s.db.deposits then Committed(AfterPutDeposit(s, txid, row).db) else ConditionFailed
  {
    var tx := PutDepositTx(txid, row);
    NoOps(s.db);
    assert txid in tx.deposits && tx.deposits[txid] == PutDepositRow(row);
    if ConditionsHold(s.db, tx) {
      assert DepositCond(s.db.deposits, txid, tx.deposits[txid]);
      OneDeposit(s.db.deposits, txid, PutDepositRow(row));
    }
  }

  /** The reversed mark, with the compare-by-value write that gives the daily slot back. */
  function MarkReversedTx(wid: WithdrawalId, row: WithdrawalRow, slot: Option<Counters>): Tx {
    EmptyTx.(withdrawals := map[wid := ReverseRow],
             counters := if slot.None? then map[] else map[row.user := CounterOp(slot, ReturnSlot(slot.value, row.amount))])
  }

  ghost predicate MarkConditions(db: Db, wid: WithdrawalId, row: WithdrawalRow, slot: Option<Counters>) {
    && wid in db.withdrawals && db.withdrawals[wid].status != Reversed
    && (slot.Some? ==> row.user in db.counters && db.counters[row.user] == slot.value)
  }

  lemma MarkConditionsHold(s: State, wid: WithdrawalId, row: WithdrawalRow, slot: Option<Counters>)
    ensures ConditionsHold(s.db, MarkReversedTx(wid, row, slot)) <==> MarkConditions(s.db, wid, row, slot)
  {
    var tx := MarkReversedTx(wid, row, slot);
    assert wid in tx.withdrawals && tx.withdrawals[wid] == ReverseRow;
    assert slot.Some? ==> row.user in tx.counters && tx.counters[row.user].prev == slot;
    if ConditionsHold(s.db, tx) {
      assert WithdrawalCond(s.db.withdrawals, wid, tx.withdrawals[wid]);
      assert slot.Some? ==> CounterCond(s.db.counters, row.user, tx.counters[row.user]);
    }
  }

  lemma OneCounterOp(t: map<UserId, Counters>, user: UserId, op: CounterOp)
    ensures CountersAfter(t, map[user := op]) == t[user := op.next]
  {
  }

  lemma MarkIsTransaction(s: State, wid: WithdrawalId, row: WithdrawalRow, slot: Option<Counters>)
    requires KnowsWithdrawal(s, wid, row)
    ensures TransactWrite(s.db, MarkReversedTx(wid, row, slot))
            == if MarkConditions(s.db, wid, row, slot) then Committed(AfterMarkReversed(s, wid, slot).db) else ConditionFailed
  {
    NoOps(s.db);
    MarkConditionsHold(s, wid, row, slot);
    if MarkConditions(s.db, wid, row, slot) {
      OneReversal(s.db.withdrawals, wid);
      if slot.Some? {
        OneCounterOp(s.db.counters, row.user, CounterOp(slot, ReturnSlot(slot.value, row.amount)));
      }
    }
  }

  lemma OneReversal(t: map<WithdrawalId, WithdrawalRow>, wid: WithdrawalId)
    requires WithdrawalCond(t, wid, ReverseRow)
    ensures WithdrawalsAfter(t, map[wid := ReverseRow]) == t[wid := t[wid].(status := Reversed)]
  {
  }

  function OpenWalletTx(user: UserId, kind: WalletType, id: WalletId): Tx {
    EmptyTx.(wallets := map[id := NewWallet(Wallet(user, kind, 0, Some(0), NO_OVERRIDES))], markers := map[Owner(user, kind) := id])
  }

  lemma OpenIsTransaction(s: State, user: UserId, kind: WalletType, id: WalletId)
    ensures TransactWrite(s.db, OpenWalletTx(user, kind, id))
            == if id !in s.db.wallets && Owner(user, kind) !in s.db.markers
               then Committed(AfterOpenWallet(s, user, kind, id, NO_OVERRIDES).db) else ConditionFailed
  {
    NoOps(s.db);
    OpenConditions(s.db, user, kind, id);
    if id !in s.db.wallets {
      OneWalletOp(s.db.wallets, id, OpenWalletTx(user, kind, id).wallets[id]);
    }
  }

  lemma OpenConditions(db: Db, user: UserId, kind: WalletType, id: WalletId)
    ensures ConditionsHold(db, OpenWalletTx(user, kind, id)) <==> id !in db.wallets && Owner(user, kind) !in db.markers
  {
    var tx := OpenWalletTx(user, kind, id);
    assert id in tx.wallets && Owner(user, kind) in tx.markers;
    assert ConditionsHold(db, tx) ==> WalletCond(db.wallets, id, tx.wallets[id]);
  }
}
