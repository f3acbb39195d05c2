/** Deposits: one row per id, credited or sent back to the payer, never both while calls on one deposit neither
    overlap nor read it stale. */
module Deposits {
  import opened Rows
  import opened Store
  import opened System
  import opened Ledger
  import opened Withdrawals

  ghost predicate DepositOk(s: State, txid: Txid)
    requires txid in s.db.deposits
  {
    var row := s.db.deposits[txid];
    && row.user == txid.user && OwnsWallet(s, row.user, Real, row.wallet)
    && (row.status == Pending ==> DepositKey(txid) !in s.db.guards && txid !in s.refunding)
    && (row.status in {RefundPending, RefundFailed, Refunded} ==> txid in s.refunding)
    && (row.status == Refunded ==> txid in s.refunded)
    && (row.status == Confirmed ==> DepositKey(txid) in s.db.guards)
    && row.status != RejectedCpf && row.status != Expired
    && (txid in s.charges ==> s.charges[txid].amount == row.amount)
  }

  ghost predicate CreditOk(s: State, txid: Txid) {
    && txid in s.db.deposits
    && Books(s, DepositKey(txid), s.db.deposits[txid].wallet, s.db.deposits[txid].amount)
    && txid in s.charges && s.charges[txid].paid == Some(s.db.deposits[txid].amount)
    && txid !in s.rejected
  }

  ghost predicate RefundAskOk(s: State, ask: (Txid, nat)) {
    ask.0 in s.refunding && ask.0 in s.charges && s.charges[ask.0].paid == Some(ask.1)
  }

  ghost predicate DepositsOk(s: State) {
    forall txid :: txid in s.db.deposits ==> DepositOk(s, txid)
  }

  ghost predicate CreditsOk(s: State) {
    forall txid :: DepositKey(txid) in s.db.guards ==> CreditOk(s, txid)
  }

  ghost predicate RailOk(s: State) {
    && s.rejected <= s.refunding && s.refunding <= s.db.deposits.Keys && s.charges.Keys <= s.db.deposits.Keys
    && (forall txid :: txid in s.refunding ==> txid in s.charges && s.charges[txid].paid.Some?)
    && (forall ask :: ask in s.refundAsks ==> RefundAskOk(s, ask))
    && (forall ask :: ask in s.chargeAsks ==> ask.0 in s.db.deposits && s.db.deposits[ask.0].amount == ask.1)
    && (forall txid :: txid in s.refunded ==> exists amount: nat :: (txid, amount) in s.refundAsks)
  }

  ghost predicate DepositsInv(s: State) {
    DepositsOk(s) && CreditsOk(s) && RailOk(s)
  }

  /** While calls on one deposit neither overlap nor read it stale, a credited deposit stays confirmed and is
      never sent back. */
  ghost predicate ExclusiveInv(s: State) {
    forall txid :: DepositKey(txid) in s.db.guards ==>
      txid in s.db.deposits && s.db.deposits[txid].status == Confirmed && txid !in s.refunding
  }

  lemma DepositsFrame(s: State, s': State)
    requires DepositsInv(s)
    requires s'.db.deposits == s.db.deposits && s'.db.ledger == s.db.ledger && s'.db.guards == s.db.guards
    requires forall user, kind, w :: OwnsWallet(s, user, kind, w) ==> OwnsWallet(s', user, kind, w)
    requires s'.charges == s.charges && s'.refunded == s.refunded && s'.chargeAsks == s.chargeAsks
        && s'.refundAsks == s.refundAsks
    requires s'.rejected == s.rejected && s'.refunding == s.refunding
    ensures DepositsInv(s')
  {
    forall txid | txid in s'.db.deposits ensures DepositOk(s', txid) {
      assert DepositOk(s, txid);
    }
    forall txid | DepositKey(txid) in s'.db.guards ensures CreditOk(s', txid) {
      assert CreditOk(s, txid);
    }
    forall ask | ask in s'.refundAsks ensures RefundAskOk(s', ask) {
      assert RefundAskOk(s, ask);
    }
  }

  lemma OwnershipStays(s: State, m: Mutation, read: Snapshot, sk: SortKey, user: UserId, kind: WalletType, w: WalletId)
    requires Commits(s, m, read, sk) && OwnsWallet(s, user, kind, w)
    ensures OwnsWallet(AfterCommit(s, m, read, sk), user, kind, w)
  {
  }

  lemma RailAfterCommit(s: State, m: Mutation, read: Snapshot, sk: SortKey)
    requires RailOk(s) && Commits(s, m, read, sk)
    requires forall txid :: txid in s.db.deposits ==>
      txid in AfterCommit(s, m, read, sk).db.deposits
      && AfterCommit(s, m, read, sk).db.deposits[txid].amount == s.db.deposits[txid].amount
    ensures RailOk(AfterCommit(s, m, read, sk))
  {
    var s' := AfterCommit(s, m, read, sk);
    forall ask | ask in s'.refundAsks ensures RefundAskOk(s', ask) {
      assert RefundAskOk(s, ask);
    }
  }

  lemma CreditStays(s: State, m: Mutation, read: Snapshot, sk: SortKey, txid: Txid)
    requires Commits(s, m, read, sk) && CreditOk(s, txid)
    requires txid in AfterCommit(s, m, read, sk).db.deposits
    requires SameDeposit(AfterCommit(s, m, read, sk).db.deposits[txid], s.db.deposits[txid])
    ensures CreditOk(AfterCommit(s, m, read, sk), txid)
  {
    BooksStay(s, m, read, sk, DepositKey(txid), s.db.deposits[txid].wallet, s.db.deposits[txid].amount);
  }

  lemma OtherCommitKeepsDeposits(s: State, m: Mutation, read: Snapshot, sk: SortKey)
    requires DepositsInv(s) && Commits(s, m, read, sk)
    requires m.deposits == map[] && !m.key.DepositKey?
    ensures DepositsInv(AfterCommit(s, m, read, sk))
  {
    var s' := AfterCommit(s, m, read, sk);
    RailAfterCommit(s, m, read, sk);
    forall txid | txid in s'.db.deposits ensures DepositOk(s', txid) {
      assert DepositOk(s, txid);
      OwnershipStays(s, m, read, sk, s.db.deposits[txid].user, Real, s.db.deposits[txid].wallet);
    }
    forall txid | DepositKey(txid) in s'.db.guards ensures CreditOk(s', txid) {
      assert CreditOk(s, txid);
      CreditStays(s, m, read, sk, txid);
    }
  }

  lemma ConfirmMovesRow(env: Env, s: State, f: Flow, read: Snapshot, sk: SortKey)
    requires f.ConfirmDeposit? && Commits(s, MutationOf(env, f), read, sk)
    ensures f.txid in s.db.deposits && s.db.deposits[f.txid].status == Pending
    ensures AfterCommit(s, MutationOf(env, f), read, sk).db.deposits
        == s.db.deposits[f.txid := s.db.deposits[f.txid].(status := Confirmed)]
  {
    var m := MutationOf(env, f);
    assert f.txid in m.deposits && DepositCond(s.db.deposits, f.txid, m.deposits[f.txid]);
    OneDeposit(s.db.deposits, f.txid, m.deposits[f.txid]);
  }

  lemma OneDeposit(t: map<Txid, DepositRow>, txid: Txid, op: DepositOp)
    requires DepositCond(t, txid, op)
    ensures DepositsAfter(t, map[txid := op]) == t[txid := DepositAfter(t, txid, op)]
  {
  }

  lemma ConfirmKeepsRows(env: Env, s: State, f: Flow, read: Snapshot, sk: SortKey)
    requires DepositsInv(s) && f.ConfirmDeposit? && Known(env, s, f) && Commits(s, MutationOf(env, f), read, sk)
    ensures DepositsOk(AfterCommit(s, MutationOf(env, f), read, sk)) && RailOk(AfterCommit(s, MutationOf(env, f), read, sk))
  {
    var m := MutationOf(env, f);
    var s' := AfterCommit(s, m, read, sk);
    ConfirmMovesRow(env, s, f, read, sk);
    RailAfterCommit(s, m, read, sk);
    forall txid | txid in s'.db.deposits ensures DepositOk(s', txid) {
      ConfirmKeepsRow(env, s, f, read, sk, txid);
    }
  }

  lemma ConfirmKeepsRow(env: Env, s: State, f: Flow, read: Snapshot, sk: SortKey, txid: Txid)
    requires f.ConfirmDeposit? && Commits(s, MutationOf(env, f), read, sk)
    requires txid in s.db.deposits && DepositOk(s, txid)
    ensures txid in AfterCommit(s, MutationOf(env, f), read, sk).db.deposits
    ensures DepositOk(AfterCommit(s, MutationOf(env, f), read, sk), txid)
  {
    ConfirmMovesRow(env, s, f, read, sk);
    OwnershipStays(s, MutationOf(env, f), read, sk, s.db.deposits[txid].user, Real, s.db.deposits[txid].wallet);
  }

  lemma ConfirmKeepsCredits(env: Env, s: State, f: Flow, read: Snapshot, sk: SortKey)
    requires DepositsInv(s) && f.ConfirmDeposit? && Known(env, s, f) && Commits(s, MutationOf(env, f), read, sk)
    ensures CreditsOk(AfterCommit(s, MutationOf(env, f), read, sk))
  {
    var m := MutationOf(env, f);
    var s' := AfterCommit(s, m, read, sk);
    ConfirmMovesRow(env, s, f, read, sk);
    NewBooks(s, m, read, sk);
    assert DepositOk(s, f.txid);
    forall txid | DepositKey(txid) in s'.db.guards && txid != f.txid ensures CreditOk(s', txid) {
      assert CreditOk(s, txid);
      CreditStays(s, m, read, sk, txid);
    }
  }

  lemma PostKeepsDeposits(env: Env, c: CallId, s: State, f: Flow, read: Snapshot, sk: SortKey, answered: bool)
    requires DepositsInv(s) && CanPost(env, c, s, f, read, sk)
    ensures DepositsInv(AfterPost(env, c, s, f, read, sk, answered))
  {
    var m := MutationOf(env, f);
    Footprint(env, f);
    if f.ConfirmDeposit? {
      ConfirmKeepsRows(env, s, f, read, sk);
      ConfirmKeepsCredits(env, s, f, read, sk);
    } else {
      OtherCommitKeepsDeposits(s, m, read, sk);
    }
    DepositsFrame(AfterCommit(s, m, read, sk), AfterPost(env, c, s, f, read, sk, answered));
  }

  lemma MoveKeepsDeposits(env: Env, c: CallId, s: State, txid: Txid, from: DepositStatus, to: DepositStatus)
    requires DepositsInv(s) && CanMoveDeposit(env, c, s, txid, from, to)
    ensures DepositsInv(AfterMoveDeposit(s, txid, from, to))
  {
    var s' := AfterMoveDeposit(s, txid, from, to);
    MoveKeepsCredits(env, c, s, txid, from, to);
    MoveKeepsRows(env, c, s, txid, from, to);
    forall ask | ask in s'.refundAsks ensures RefundAskOk(s', ask) {
      assert RefundAskOk(s, ask);
    }
  }

  lemma MoveKeepsRows(env: Env, c: CallId, s: State, txid: Txid, from: DepositStatus, to: DepositStatus)
    requires DepositsOk(s) && CanMoveDeposit(env, c, s, txid, from, to)
    ensures DepositsOk(AfterMoveDeposit(s, txid, from, to))
  {
    var s' := AfterMoveDeposit(s, txid, from, to);
    forall id | id in s'.db.deposits ensures DepositOk(s', id) {
      assert DepositOk(s, id);
    }
  }

  /** A credited deposit was never pending when it was moved, so it is not rejected by the move. */
  lemma MoveKeepsCredits(env: Env, c: CallId, s: State, txid: Txid, from: DepositStatus, to: DepositStatus)
    requires DepositsOk(s) && CreditsOk(s) && CanMoveDeposit(env, c, s, txid, from, to)
    ensures CreditsOk(AfterMoveDeposit(s, txid, from, to))
  {
    var s' := AfterMoveDeposit(s, txid, from, to);
    assert DepositOk(s, txid);
    forall id | DepositKey(id) in s'.db.guards ensures CreditOk(s', id) {
      assert CreditOk(s, id);
    }
  }

  lemma PutKeepsDeposits(s: State, txid: Txid, row: DepositRow)
    requires DepositsInv(s) && CanPutDeposit(s, txid, row)
    ensures DepositsInv(AfterPutDeposit(s, txid, row))
  {
    var s' := AfterPutDeposit(s, txid, row);
    forall id | id in s'.db.deposits ensures DepositOk(s', id) {
      if id != txid {
        assert DepositOk(s, id);
      } else {
        assert DepositKey(id) in s.db.guards ==> CreditOk(s, id);
      }
    }
    forall id | DepositKey(id) in s'.db.guards ensures CreditOk(s', id) {
      assert CreditOk(s, id);
    }
    forall ask | ask in s'.refundAsks ensures RefundAskOk(s', ask) {
      assert RefundAskOk(s, ask);
    }
  }

  predicate TouchesDepositRail(a: Action) {
    a.OpenCharge? || a.PayCharge? || a.AskRefund? || a.AcceptRefund?
  }

  lemma RailKeepsRail(env: Env, c: CallId, a: Action, s: State)
    requires DepositsInv(s) && TouchesDepositRail(a) && Enabled(env, c, a, s)
    ensures RailOk(Effect(env, c, a, s))
  {
    hide OwnsWallet, DepositsOk, CreditsOk;
    var s' := Effect(env, c, a, s);
    forall ask | ask in s'.refundAsks ensures RefundAskOk(s', ask) {
      assert ask in s.refundAsks ==> RefundAskOk(s, ask);
    }
  }

  lemma RailKeepsDeposits(env: Env, c: CallId, a: Action, s: State)
    requires DepositsInv(s) && TouchesDepositRail(a) && Enabled(env, c, a, s)
    ensures DepositsOk(Effect(env, c, a, s)) && CreditsOk(Effect(env, c, a, s))
  {
    hide RailOk, Enabled, Effect;
    var s' := Effect(env, c, a, s);
    RailMovesOnly(env, c, a, s);
    forall id | id in s'.db.deposits ensures DepositOk(s', id) {
      assert DepositOk(s, id);
    }
    forall id | DepositKey(id) in s'.db.guards ensures CreditOk(s', id) {
      assert CreditOk(s, id);
    }
  }

  /** At the rail, charges are opened for the reserved amount and paid once, and refunds are accepted. */
  lemma RailMovesOnly(env: Env, c: CallId, a: Action, s: State)
    requires TouchesDepositRail(a) && Enabled(env, c, a, s)
    ensures var s' := Effect(env, c, a, s);
            && s'.db == s.db && s'.refunding == s.refunding && s'.rejected == s.rejected && s.refunded <= s'.refunded
            && (forall id :: id in s.charges ==> id in s'.charges && s'.charges[id].amount == s.charges[id].amount
                                                 && (s.charges[id].paid.Some? ==> s'.charges[id].paid == s.charges[id].paid))
            && (forall id :: id in s'.charges && id !in s.charges ==>
                  id in s.db.deposits && s'.charges[id].amount == s.db.deposits[id].amount)
  {
  }

  lemma DepositsUntouched(env: Env, c: CallId, a: Action, s: State)
    requires Enabled(env, c, a, s) && !a.Post? && !a.MoveDeposit? && !a.PutDeposit? && !TouchesDepositRail(a)
    ensures var s' := Effect(env, c, a, s);
            && s'.db.deposits == s.db.deposits && s'.db.ledger == s.db.ledger && s'.db.guards == s.db.guards
            && s'.charges == s.charges && s'.refunded == s.refunded && s'.chargeAsks == s.chargeAsks
                && s'.refundAsks == s.refundAsks
            && s'.rejected == s.rejected && s'.refunding == s.refunding
            && forall user, kind, w :: OwnsWallet(s, user, kind, w) ==> OwnsWallet(s', user, kind, w)
  {
  }

  /** Every action of every call keeps the deposit rows in step with the ledger and the rail. */
  lemma DepositsPreserved(env: Env, c: CallId, a: Action, s: State)
    requires DepositsInv(s) && Enabled(env, c, a, s)
    ensures DepositsInv(Effect(env, c, a, s))
  {
    var s' := Effect(env, c, a, s);
    if a.Post? {
      PostKeepsDeposits(env, c, s, a.flow, a.read, a.sk, a.answered);
    } else if a.MoveDeposit? {
      MoveKeepsDeposits(env, c, s, a.txid, a.from, a.to);
    } else if a.PutDeposit? {
      PutKeepsDeposits(s, a.txid, a.deposit);
    } else if TouchesDepositRail(a) {
      RailKeepsRail(env, c, a, s);
      RailKeepsDeposits(env, c, a, s);
    } else {
      DepositsUntouched(env, c, a, s);
      DepositsFrame(s, s');
    }
  }

  lemma PostKeepsExclusive(env: Env, c: CallId, s: State, f: Flow, read: Snapshot, sk: SortKey, answered: bool)
    requires DepositsInv(s) && ExclusiveInv(s) && CanPost(env, c, s, f, read, sk)
    ensures ExclusiveInv(AfterPost(env, c, s, f, read, sk, answered))
  {
    hide Known, Commits;
    Footprint(env, f);
    if f.ConfirmDeposit? {
      ConfirmKeepsExclusive(env, s, f, read, sk);
    } else {
      OtherCommitKeepsExclusive(s, MutationOf(env, f), read, sk);
    }
  }

  lemma ConfirmKeepsExclusive(env: Env, s: State, f: Flow, read: Snapshot, sk: SortKey)
    requires DepositsOk(s) && ExclusiveInv(s) && f.ConfirmDeposit? && Commits(s, MutationOf(env, f), read, sk)
    ensures ExclusiveInv(AfterCommit(s, MutationOf(env, f), read, sk))
  {
    hide Commits, OwnsWallet;
    ConfirmMovesRow(env, s, f, read, sk);
    assert DepositOk(s, f.txid);
  }

  lemma OtherCommitKeepsExclusive(s: State, m: Mutation, read: Snapshot, sk: SortKey)
    requires ExclusiveInv(s) && Commits(s, m, read, sk) && m.deposits == map[] && !m.key.DepositKey?
    ensures ExclusiveInv(AfterCommit(s, m, read, sk))
  {
    hide Commits;
  }

  lemma DepositRowsUntouched(env: Env, c: CallId, a: Action, s: State)
    requires Enabled(env, c, a, s) && !a.Post? && !a.MoveDeposit? && !a.PutDeposit?
    ensures var s' := Effect(env, c, a, s);
            s'.db.deposits == s.db.deposits && s'.db.guards == s.db.guards && s'.refunding == s.refunding
  {
  }

  lemma ExclusivePreserved(env: Env, c: CallId, a: Action, s: State)
    requires DepositsInv(s) && ExclusiveInv(s) && Alone(env) && Enabled(env, c, a, s)
    ensures ExclusiveInv(Effect(env, c, a, s))
  {
    if a.Post? {
      PostKeepsExclusive(env, c, s, a.flow, a.read, a.sk, a.answered);
    } else if !a.MoveDeposit? && !a.PutDeposit? {
      DepositRowsUntouched(env, c, a, s);
    }
  }
}
