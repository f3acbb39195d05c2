/** Withdrawals: one debit, at most one payout asked, and never both paid and credited back. */
module Withdrawals {
  import opened Rows
  import opened Store
  import opened System
  import opened Ledger

  /** Guard k names an entry of this amount on this wallet. */
  ghost predicate Books(s: State, k: IdemKey, wallet: WalletId, amount: int) {
    && k in s.db.guards && s.db.guards[k].wallet == wallet
    && LedgerKey(wallet, s.db.guards[k].sk) in s.db.ledger
    && s.db.ledger[LedgerKey(wallet, s.db.guards[k].sk)].amount == amount
  }

  ghost predicate RowOk(s: State, wid: WithdrawalId)
    requires wid in s.db.withdrawals
  {
    var row := s.db.withdrawals[wid];
    && Books(s, WithdrawKey(wid), row.wallet, -(row.amount as int))
    && (ReverseKey(wid) in s.db.guards ==>
          Books(s, ReverseKey(wid), row.wallet, row.amount)
              && s.db.guards[ReverseKey(wid)].hash == ReqHash(ReversalRef(wid), row.amount))
    && (row.status == Reversed ==> ReverseKey(wid) in s.db.guards)
    && (row.status == Completed ==> wid in s.payouts && s.payouts[wid].status == PayoutDone)
    && row.createdAt <= s.clock && row.user == wid.user
    && s.db.guards[WithdrawKey(wid)].hash == ReqHash(Text(row.pixKey), row.amount)
  }

  ghost predicate RowsOk(s: State) {
    forall wid :: wid in s.db.withdrawals ==> RowOk(s, wid)
  }

  ghost predicate PayoutOk(env: Env, s: State, wid: WithdrawalId)
    requires wid in s.payouts
  {
    wid in s.payoutAsks && wid in s.db.withdrawals && s.payouts[wid].acceptedAt < s.db.withdrawals[wid].createdAt + env.window
  }

  /** Guards, payout permissions, payout requests and payouts all belong to existing rows. */
  ghost predicate NoStrays(env: Env, s: State) {
    && (forall wid :: WithdrawKey(wid) in s.db.guards || ReverseKey(wid) in s.db.guards ==> wid in s.db.withdrawals)
    && (forall wid :: wid in s.payer ==> wid in s.db.withdrawals && wid !in s.payoutAsks)
    && (forall wid :: wid in s.payoutAsks ==> wid in s.db.withdrawals)
    && (forall wid :: wid in s.payouts ==> PayoutOk(env, s, wid))
  }

  /** Rows, guards and the rail agree on which withdrawals exist. */
  ghost predicate RowsInv(env: Env, s: State) {
    RowsOk(s) && NoStrays(env, s)
  }

  /** The rail can never pay this withdrawal: it refused it, or never saw it and no longer accepts it. */
  ghost predicate Unpayable(env: Env, s: State, wid: WithdrawalId)
    requires wid in s.db.withdrawals
  {
    if wid in s.payouts then s.payouts[wid].status == PayoutFailed
    else s.clock >= s.db.withdrawals[wid].createdAt + env.window
  }

  /** Whatever was credited back, or was about to be, can never be paid. */
  ghost predicate CreditInv(env: Env, s: State) {
    forall wid :: wid in s.db.withdrawals && (ReverseKey(wid) in s.db.guards || s.db.withdrawals[wid].status == ReversalFailed)
                  ==> Unpayable(env, s, wid)
  }

  /** The rail stops accepting before "unknown" is believed, even counting the time between the
      rail's answer and the code's clock reading. */
  ghost predicate GraceCovers(env: Env) {
    env.window + env.latency <= PAYOUT_GRACE
  }

  lemma ProvenIsUnpayable(env: Env, s: State, wid: WithdrawalId, why: Evidence)
    requires RowsInv(env, s) && GraceCovers(env) && wid in s.db.withdrawals
    requires Proven(env, s, wid, s.db.withdrawals[wid].createdAt, why)
    ensures Unpayable(env, s, wid)
  {
  }

  lemma BooksStay(s: State, m: Mutation, read: Snapshot, sk: SortKey, k: IdemKey, wallet: WalletId, amount: int)
    requires Commits(s, m, read, sk) && Books(s, k, wallet, amount)
    ensures Books(AfterCommit(s, m, read, sk), k, wallet, amount)
  {
  }

  lemma NewBooks(s: State, m: Mutation, read: Snapshot, sk: SortKey)
    requires Commits(s, m, read, sk)
    ensures Books(AfterCommit(s, m, read, sk), m.key, m.wallet, Signed(m))
  {
  }

  lemma OldRowOk(s: State, m: Mutation, read: Snapshot, sk: SortKey, wid: WithdrawalId)
    requires Commits(s, m, read, sk) && wid in s.db.withdrawals && RowOk(s, wid)
    requires wid in AfterCommit(s, m, read, sk).db.withdrawals
        && AfterCommit(s, m, read, sk).db.withdrawals[wid] == s.db.withdrawals[wid]
    requires m.key != ReverseKey(wid)
    ensures RowOk(AfterCommit(s, m, read, sk), wid)
  {
    var row := s.db.withdrawals[wid];
    BooksStay(s, m, read, sk, WithdrawKey(wid), row.wallet, -(row.amount as int));
    if ReverseKey(wid) in s.db.guards {
      BooksStay(s, m, read, sk, ReverseKey(wid), row.wallet, row.amount);
    }
  }

  lemma StraysAfterCommit(env: Env, s: State, m: Mutation, read: Snapshot, sk: SortKey)
    requires NoStrays(env, s) && Commits(s, m, read, sk)
    requires m.withdrawals == map[] && !m.key.WithdrawKey? && (m.key.ReverseKey? ==> m.key.wid in s.db.withdrawals)
    ensures NoStrays(env, AfterCommit(s, m, read, sk))
  {
    var s' := AfterCommit(s, m, read, sk);
    assert s'.db.withdrawals == s.db.withdrawals;
    forall wid | wid in s'.payouts ensures PayoutOk(env, s', wid) {
      assert PayoutOk(env, s, wid);
    }
  }

  /** A commit of another flow leaves the withdrawals as they were. */
  lemma OtherCommitKeepsRows(env: Env, s: State, m: Mutation, read: Snapshot, sk: SortKey)
    requires RowsInv(env, s) && Commits(s, m, read, sk)
    requires m.withdrawals == map[] && !m.key.WithdrawKey? && !m.key.ReverseKey?
    ensures RowsInv(env, AfterCommit(s, m, read, sk))
  {
    var s' := AfterCommit(s, m, read, sk);
    StraysAfterCommit(env, s, m, read, sk);
    forall wid | wid in s'.db.withdrawals ensures RowOk(s', wid) {
      OldRowOk(s, m, read, sk, wid);
    }
  }

  lemma OneWithdrawal(t: map<WithdrawalId, WithdrawalRow>, wid: WithdrawalId, row: WithdrawalRow)
    requires wid !in t
    ensures WithdrawalsAfter(t, map[wid := PutWithdrawalRow(row)]) == t[wid := row]
  {
  }

  lemma PayOutAddsRow(env: Env, s: State, f: Flow, read: Snapshot, sk: SortKey)
    requires f.PayOut? && Commits(s, MutationOf(env, f), read, sk)
    ensures f.wid !in s.db.withdrawals
    ensures AfterCommit(s, MutationOf(env, f), read, sk).db.withdrawals == s.db.withdrawals[f.wid := f.withdrawal]
  {
    var m := MutationOf(env, f);
    assert f.wid in m.withdrawals && WithdrawalCond(s.db.withdrawals, f.wid, m.withdrawals[f.wid]);
    OneWithdrawal(s.db.withdrawals, f.wid, f.withdrawal);
  }

  lemma PayOutKeepsRowsOk(env: Env, s: State, f: Flow, read: Snapshot, sk: SortKey)
    requires RowsInv(env, s) && f.PayOut? && Known(env, s, f) && Commits(s, MutationOf(env, f), read, sk)
    ensures RowsOk(AfterCommit(s, MutationOf(env, f), read, sk))
  {
    var m := MutationOf(env, f);
    var s' := AfterCommit(s, m, read, sk);
    PayOutAddsRow(env, s, f, read, sk);
    NewBooks(s, m, read, sk);
    assert RowOk(s', f.wid);
    forall wid | wid in s'.db.withdrawals && wid != f.wid ensures RowOk(s', wid) {
      OldRowOk(s, m, read, sk, wid);
    }
  }

  /** The debit and its row: the row is new exactly because the guard is. */
  lemma PayOutKeepsRows(env: Env, s: State, f: Flow, read: Snapshot, sk: SortKey)
    requires RowsInv(env, s) && f.PayOut? && Known(env, s, f) && Commits(s, MutationOf(env, f), read, sk)
    ensures RowsInv(env, AfterCommit(s, MutationOf(env, f), read, sk))
  {
    var s' := AfterCommit(s, MutationOf(env, f), read, sk);
    PayOutAddsRow(env, s, f, read, sk);
    PayOutKeepsRowsOk(env, s, f, read, sk);
    forall wid | wid in s'.payouts ensures PayoutOk(env, s', wid) {
      assert PayoutOk(env, s, wid);
    }
  }

  lemma ReverseKeepsRows(env: Env, s: State, f: Flow, read: Snapshot, sk: SortKey)
    requires RowsInv(env, s) && f.Reverse? && Known(env, s, f) && Commits(s, MutationOf(env, f), read, sk)
    ensures RowsInv(env, AfterCommit(s, MutationOf(env, f), read, sk))
  {
    var m := MutationOf(env, f);
    var s' := AfterCommit(s, m, read, sk);
    StraysAfterCommit(env, s, m, read, sk);
    ReverseBooks(env, s, f, read, sk);
    forall wid | wid in s'.db.withdrawals && wid != f.wid ensures RowOk(s', wid) {
      OldRowOk(s, m, read, sk, wid);
    }
  }

  lemma ReverseBooks(env: Env, s: State, f: Flow, read: Snapshot, sk: SortKey)
    requires RowsInv(env, s) && f.Reverse? && Known(env, s, f) && Commits(s, MutationOf(env, f), read, sk)
    ensures RowOk(AfterCommit(s, MutationOf(env, f), read, sk), f.wid)
  {
    var m := MutationOf(env, f);
    var row := s.db.withdrawals[f.wid];
    assert RowOk(s, f.wid);
    NewBooks(s, m, read, sk);
    BooksStay(s, m, read, sk, WithdrawKey(f.wid), row.wallet, -(row.amount as int));
  }

  lemma RowsFrame(env: Env, s: State, s': State)
    requires RowsInv(env, s)
    requires s'.db.withdrawals == s.db.withdrawals && s'.db.guards == s.db.guards && s'.db.ledger == s.db.ledger
    requires s'.payouts == s.payouts && s'.payoutAsks == s.payoutAsks && s.clock <= s'.clock
    requires forall wid :: wid in s'.payer ==> wid in s.db.withdrawals && wid !in s.payoutAsks
    ensures RowsInv(env, s')
  {
    forall wid | wid in s'.db.withdrawals ensures RowOk(s', wid) {
      assert RowOk(s, wid);
    }
    forall wid | wid in s'.payouts ensures PayoutOk(env, s', wid) {
      assert PayoutOk(env, s, wid);
    }
  }

  lemma PayOutPostKeepsRows(env: Env, c: CallId, s: State, f: Flow, read: Snapshot, sk: SortKey, answered: bool)
    requires RowsInv(env, s) && f.PayOut? && CanPost(env, c, s, f, read, sk)
    ensures RowsInv(env, AfterPost(env, c, s, f, read, sk, answered))
  {
    PayOutAddsRow(env, s, f, read, sk);
    PayOutKeepsRows(env, s, f, read, sk);
    RowsFrame(env, AfterCommit(s, MutationOf(env, f), read, sk), AfterPost(env, c, s, f, read, sk, answered));
  }

  lemma OtherPostKeepsRows(env: Env, c: CallId, s: State, f: Flow, read: Snapshot, sk: SortKey, answered: bool)
    requires RowsInv(env, s) && !f.PayOut? && CanPost(env, c, s, f, read, sk)
    ensures RowsInv(env, AfterPost(env, c, s, f, read, sk, answered))
  {
    var m := MutationOf(env, f);
    Footprint(env, f);
    if f.Reverse? {
      ReverseKeepsRows(env, s, f, read, sk);
    } else {
      OtherCommitKeepsRows(env, s, m, read, sk);
    }
    RowsFrame(env, AfterCommit(s, m, read, sk), AfterPost(env, c, s, f, read, sk, answered));
  }

  lemma SetKeepsRows(env: Env, s: State, wid: WithdrawalId, to: WithdrawalStatus, why: Evidence)
    requires RowsInv(env, s) && CanSetWithdrawal(env, s, wid, to, why)
    ensures RowsInv(env, AfterSetWithdrawal(s, wid, to))
  {
    var s' := AfterSetWithdrawal(s, wid, to);
    forall id | id in s'.db.withdrawals ensures RowOk(s', id) {
      assert RowOk(s, id);
    }
    forall id | id in s'.payouts ensures PayoutOk(env, s', id) {
      assert PayoutOk(env, s, id);
    }
  }

  lemma MarkKeepsRows(env: Env, s: State, wid: WithdrawalId, slot: Option<Counters>)
    requires RowsInv(env, s) && CanMarkReversed(env, s, wid, slot)
    ensures RowsInv(env, AfterMarkReversed(s, wid, slot))
  {
    var s' := AfterMarkReversed(s, wid, slot);
    forall id | id in s'.db.withdrawals ensures RowOk(s', id) {
      assert RowOk(s, id);
    }
    forall id | id in s'.payouts ensures PayoutOk(env, s', id) {
      assert PayoutOk(env, s, id);
    }
  }

  lemma RailKeepsRows(env: Env, c: CallId, a: Action, s: State)
    requires RowsInv(env, s) && (a.AskPayout? || a.AcceptPayout? || a.SettlePayout?) && Enabled(env, c, a, s)
    ensures RowsOk(Effect(env, c, a, s))
  {
    hide NoStrays, Proven;
    var s' := Effect(env, c, a, s);
    assert s'.db == s.db && s'.clock == s.clock;
    forall id | id in s'.db.withdrawals ensures RowOk(s', id) {
      assert RowOk(s, id);
    }
  }

  lemma RailKeepsStrays(env: Env, c: CallId, a: Action, s: State)
    requires RowsInv(env, s) && (a.AskPayout? || a.AcceptPayout? || a.SettlePayout?) && Enabled(env, c, a, s)
    ensures NoStrays(env, Effect(env, c, a, s))
  {
    var s' := Effect(env, c, a, s);
    forall id | id in s'.payouts ensures PayoutOk(env, s', id) {
      assert id in s.payouts ==> PayoutOk(env, s, id);
    }
  }

  predicate TouchesWithdrawals(a: Action) {
    a.Post? || a.SetWithdrawal? || a.MarkReversed? || a.AskPayout? || a.AcceptPayout? || a.SettlePayout?
  }

  lemma WithdrawalsUntouched(env: Env, c: CallId, a: Action, s: State)
    requires Enabled(env, c, a, s) && !TouchesWithdrawals(a)
    ensures var s' := Effect(env, c, a, s);
            && s'.db.withdrawals == s.db.withdrawals && s'.db.guards == s.db.guards && s'.db.ledger == s.db.ledger
            && s'.payouts == s.payouts && s'.payoutAsks == s.payoutAsks && s'.payer == s.payer && s.clock <= s'.clock
  {
  }

  /** Every action of every call keeps the withdrawal rows in step with the ledger and the rail. */
  lemma RowsPreserved(env: Env, c: CallId, a: Action, s: State)
    requires RowsInv(env, s) && Enabled(env, c, a, s)
    ensures RowsInv(env, Effect(env, c, a, s))
  {
    var s' := Effect(env, c, a, s);
    if a.Post? {
      if a.flow.PayOut? {
        PayOutPostKeepsRows(env, c, s, a.flow, a.read, a.sk, a.answered);
      } else {
        OtherPostKeepsRows(env, c, s, a.flow, a.read, a.sk, a.answered);
      }
    } else if a.SetWithdrawal? {
      SetKeepsRows(env, s, a.wid, a.status, a.why);
    } else if a.MarkReversed? {
      MarkKeepsRows(env, s, a.wid, a.slot);
    } else if TouchesWithdrawals(a) {
      RailKeepsRows(env, c, a, s);
      RailKeepsStrays(env, c, a, s);
    } else {
      WithdrawalsUntouched(env, c, a, s);
      RowsFrame(env, s, s');
    }
  }

  // ---- credited back implies never paid ----

  lemma PostKeepsCredit(env: Env, c: CallId, a: Action, s: State)
    requires RowsInv(env, s) && CreditInv(env, s) && GraceCovers(env)
    requires a.Post? && Enabled(env, c, a, s)
    ensures CreditInv(env, Effect(env, c, a, s))
  {
    var m := MutationOf(env, a.flow);
    var s' := Effect(env, c, a, s);
    Footprint(env, a.flow);
    if a.flow.PayOut? {
      PayOutAddsRow(env, s, a.flow, a.read, a.sk);
      assert ReverseKey(a.flow.wid) !in s.db.guards;
    }
    forall wid | wid in s'.db.withdrawals && (ReverseKey(wid) in s'.db.guards || s'.db.withdrawals[wid].status == ReversalFailed)
      ensures Unpayable(env, s', wid) {
      if m.key == ReverseKey(wid) {
        ProvenIsUnpayable(env, s, wid, a.flow.why);
      }
      assert Unpayable(env, s, wid);
    }
  }

  lemma OtherActionKeepsCredit(env: Env, c: CallId, a: Action, s: State)
    requires RowsInv(env, s) && CreditInv(env, s) && GraceCovers(env)
    requires TouchesWithdrawals(a) && !a.Post? && Enabled(env, c, a, s)
    ensures CreditInv(env, Effect(env, c, a, s))
  {
    hide Known, RowsInv, OwnsWallet, PayoutOk;
    var s' := Effect(env, c, a, s);
    forall wid | wid in s'.db.withdrawals && (ReverseKey(wid) in s'.db.guards || s'.db.withdrawals[wid].status == ReversalFailed)
      ensures Unpayable(env, s', wid) {
      if a.SetWithdrawal? && a.wid == wid && a.status == ReversalFailed {
        ProvenIsUnpayable(env, s, wid, a.why);
      }
      assert Unpayable(env, s, wid);
    }
  }

  lemma CreditPreserved(env: Env, c: CallId, a: Action, s: State)
    requires RowsInv(env, s) && CreditInv(env, s) && GraceCovers(env) && Enabled(env, c, a, s)
    ensures CreditInv(env, Effect(env, c, a, s))
  {
    if a.Post? {
      PostKeepsCredit(env, c, a, s);
    } else if TouchesWithdrawals(a) {
      OtherActionKeepsCredit(env, c, a, s);
    } else {
      WithdrawalsUntouched(env, c, a, s);
      var s' := Effect(env, c, a, s);
      forall wid | wid in s'.db.withdrawals
          && (ReverseKey(wid) in s'.db.guards || s'.db.withdrawals[wid].status == ReversalFailed)
        ensures Unpayable(env, s', wid) {
        assert Unpayable(env, s, wid);
      }
    }
  }
}
