/** What no action of any call ever takes back: the store's keyed facts, the committed entries, the
    rail's final answers. `Later` is what a call may rely on about everybody else's steps; everything
    `Known` needs survives it, which is what makes reads safe to act on without a lock. */
module Growth {
  import opened Rows
  import opened Limits
  import opened Store
  import opened System

  /** A wallet's entries, and its balance: none and zero before the wallet is opened. */
  function HistoryOf(s: State, w: WalletId): seq<Entry> { if w in s.hist then s.hist[w] else [] }

  function Holding(s: State, w: WalletId): int { if w in s.db.wallets then s.db.wallets[w].balance else 0 }

  ghost predicate LaterLedger(s: State, s': State) {
    && s.clock <= s'.clock
    && (forall o :: o in s.db.markers ==> o in s'.db.markers && s'.db.markers[o] == s.db.markers[o])
    && (forall w :: w in s.db.wallets ==> w in s'.db.wallets && s'.db.wallets[w].overrides == s.db.wallets[w].overrides)
    && (forall w :: w in s.hist ==> w in s'.hist && s.hist[w] <= s'.hist[w])
    && (forall k :: k in s.db.ledger ==> k in s'.db.ledger && s'.db.ledger[k] == s.db.ledger[k])
    && (forall k :: k in s.db.guards ==> k in s'.db.guards && s'.db.guards[k] == s.db.guards[k])
  }

  ghost predicate LaterRows(s: State, s': State) {
    && (forall id :: id in s.db.deposits ==> id in s'.db.deposits && SameDeposit(s'.db.deposits[id], s.db.deposits[id]))
    && (forall id :: id in s.db.withdrawals ==> id in s'.db.withdrawals && SameWithdrawal(s'.db.withdrawals[id], s.db.withdrawals[id]))
    && (forall id :: id in s.db.holds ==> id in s'.db.holds && SameHold(s'.db.holds[id], s.db.holds[id]))
    && (forall id :: id in s.db.holds && s.db.holds[id].status != Held ==> s'.db.holds[id].status == s.db.holds[id].status)
  }

  ghost predicate LaterPayout(s: State, s': State, wid: WithdrawalId)
    requires wid in s'.payouts
  {
    if wid in s.payouts then
      && s'.payouts[wid].acceptedAt == s.payouts[wid].acceptedAt
      && (s.payouts[wid].status != PayoutProcessing ==> s'.payouts[wid].status == s.payouts[wid].status)
    else
      s'.payouts[wid].acceptedAt >= s.clock
  }

  ghost predicate LaterRail(s: State, s': State) {
    && s.payouts.Keys <= s'.payouts.Keys
    && (forall wid :: wid in s'.payouts ==> LaterPayout(s, s', wid))
    && (forall id :: id in s.charges ==> id in s'.charges && s'.charges[id].amount == s.charges[id].amount
                                          && (s.charges[id].paid.Some? ==> s'.charges[id].paid == s.charges[id].paid))
    && s.refunded <= s'.refunded && s.refundAsks <= s'.refundAsks && s.chargeAsks <= s'.chargeAsks
        && s.payoutAsks <= s'.payoutAsks
    && s.refunding <= s'.refunding && s.rejected <= s'.rejected && s.slotsReturned <= s'.slotsReturned
  }

  ghost predicate Later(s: State, s': State) {
    LaterLedger(s, s') && LaterRows(s, s') && LaterRail(s, s')
  }

  lemma LaterTrans(s: State, t: State, u: State)
    requires Later(s, t) && Later(t, u)
    ensures Later(s, u)
  {
    forall wid | wid in u.payouts ensures LaterPayout(s, u, wid) {
      assert LaterPayout(t, u, wid);
      if wid in t.payouts {
        assert LaterPayout(s, t, wid);
      }
    }
  }

  // ---- every action grows the state ----

  lemma CommitGrows(env: Env, c: CallId, s: State, f: Flow, read: Snapshot, sk: SortKey, answered: bool)
    requires Commits(s, MutationOf(env, f), read, sk)
    ensures Later(s, AfterPost(env, c, s, f, read, sk, answered))
  {
    CommitGrowsLedger(env, c, s, f, read, sk, answered);
    CommitGrowsRows(env, c, s, f, read, sk, answered);
  }

  lemma CommitGrowsLedger(env: Env, c: CallId, s: State, f: Flow, read: Snapshot, sk: SortKey, answered: bool)
    requires Commits(s, MutationOf(env, f), read, sk)
    ensures LaterLedger(s, AfterPost(env, c, s, f, read, sk, answered))
    ensures LaterRail(s, AfterPost(env, c, s, f, read, sk, answered))
  {
  }

  lemma DepositsGrow(t: map<Txid, DepositRow>, ops: map<Txid, DepositOp>)
    requires forall id :: id in ops ==> DepositCond(t, id, ops[id])
    ensures forall id :: id in t ==> id in DepositsAfter(t, ops) && SameDeposit(DepositsAfter(t, ops)[id], t[id])
  {
  }

  lemma WithdrawalsGrow(t: map<WithdrawalId, WithdrawalRow>, ops: map<WithdrawalId, WithdrawalOp>)
    requires forall id :: id in ops ==> WithdrawalCond(t, id, ops[id])
    ensures forall id :: id in t ==> id in WithdrawalsAfter(t, ops) && SameWithdrawal(WithdrawalsAfter(t, ops)[id], t[id])
  {
  }

  /** A hold operation of any flow either opens a hold or moves one out of `Held`. */
  predicate FromHeld(op: HoldOp) { op.PutHoldRow? || op.from == Held }

  lemma HoldsGrow(t: map<HoldId, HoldRow>, ops: map<HoldId, HoldOp>)
    requires forall id :: id in ops ==> HoldCond(t, id, ops[id]) && FromHeld(ops[id])
    ensures forall id :: id in t ==> id in HoldsAfter(t, ops) && SameHold(HoldsAfter(t, ops)[id], t[id])
    ensures forall id :: id in t && t[id].status != Held ==> HoldsAfter(t, ops)[id].status == t[id].status
  {
  }

  lemma FlowsLeaveHeld(env: Env, f: Flow, id: HoldId)
    requires id in MutationOf(env, f).holds
    ensures FromHeld(MutationOf(env, f).holds[id])
  {
  }

  lemma CommitGrowsRows(env: Env, c: CallId, s: State, f: Flow, read: Snapshot, sk: SortKey, answered: bool)
    requires Commits(s, MutationOf(env, f), read, sk)
    ensures LaterRows(s, AfterPost(env, c, s, f, read, sk, answered))
  {
    var m := MutationOf(env, f);
    forall id | id in m.holds ensures FromHeld(m.holds[id]) {
      FlowsLeaveHeld(env, f, id);
    }
    DepositsGrow(s.db.deposits, m.deposits);
    WithdrawalsGrow(s.db.withdrawals, m.withdrawals);
    HoldsGrow(s.db.holds, m.holds);
  }

  lemma MoveGrows(env: Env, c: CallId, s: State, txid: Txid, from: DepositStatus, to: DepositStatus)
    requires CanMoveDeposit(env, c, s, txid, from, to)
    ensures Later(s, AfterMoveDeposit(s, txid, from, to))
  {
  }

  lemma SetGrows(s: State, wid: WithdrawalId, to: WithdrawalStatus)
    requires wid in s.db.withdrawals
    ensures Later(s, AfterSetWithdrawal(s, wid, to))
  {
  }

  lemma MarkGrows(s: State, wid: WithdrawalId, slot: Option<Counters>)
    requires wid in s.db.withdrawals
    ensures Later(s, AfterMarkReversed(s, wid, slot))
  {
  }

  /** The store stands still while the rail or the clock moves. */
  lemma RailGrows(s: State, s': State)
    requires s'.db == s.db && s'.hist == s.hist && s.clock <= s'.clock && LaterRail(s, s')
    ensures Later(s, s')
  {
  }

  predicate OnRail(a: Action) {
    a.Tick? || a.ClaimDeposit? || a.DropDeposit? || a.OpenCharge? || a.PayCharge? || a.AskRefund? || a.AcceptRefund?
    || a.AskPayout? || a.AcceptPayout? || a.SettlePayout?
  }

  lemma RailLeavesStore(env: Env, c: CallId, a: Action, s: State)
    requires OnRail(a) && Enabled(env, c, a, s)
    ensures var s' := Effect(env, c, a, s); s'.db == s.db && s'.hist == s.hist && s.clock <= s'.clock
  {
  }

  lemma RailAnswersStay(env: Env, c: CallId, a: Action, s: State)
    requires OnRail(a) && Enabled(env, c, a, s)
    ensures LaterRail(s, Effect(env, c, a, s))
  {
  }

  lemma PutGrows(s: State, txid: Txid, row: DepositRow)
    requires CanPutDeposit(s, txid, row)
    ensures Later(s, AfterPutDeposit(s, txid, row))
  {
  }

  lemma OpenGrows(s: State, user: UserId, kind: WalletType, id: WalletId, overrides: Overrides)
    requires CanOpenWallet(s, user, kind, id) && id !in s.hist
    ensures Later(s, AfterOpenWallet(s, user, kind, id, overrides))
  {
  }

  /** No action of any call undoes what `Later` protects. */
  lemma StepGrows(env: Env, c: CallId, a: Action, s: State)
    requires s.hist.Keys == s.db.wallets.Keys && Enabled(env, c, a, s)
    ensures Later(s, Effect(env, c, a, s))
  {
    if a.Post? {
      CommitGrows(env, c, s, a.flow, a.read, a.sk, a.answered);
    } else if a.MoveDeposit? {
      MoveGrows(env, c, s, a.txid, a.from, a.to);
    } else if a.SetWithdrawal? {
      SetGrows(s, a.wid, a.status);
    } else if a.MarkReversed? {
      MarkGrows(s, a.wid, a.slot);
    } else if a.OpenWallet? {
      OpenGrows(s, a.user, a.kind, a.id, a.overrides);
    } else if a.PutDeposit? {
      PutGrows(s, a.txid, a.deposit);
    } else {
      RailLeavesStore(env, c, a, s);
      RailAnswersStay(env, c, a, s);
      RailGrows(s, Effect(env, c, a, s));
    }
  }

  // ---- what a call read stays usable ----

  lemma {:induction false} ReservedStays(t: map<HoldId, HoldRow>, u: map<HoldId, HoldRow>, ids: seq<HoldId>)
    requires forall id :: id in ids ==> id in t && id in u && t[id].amount == u[id].amount
    ensures Reserved(t, ids) == Reserved(u, ids)
  {
    if ids != [] {
      ReservedStays(t, u, ids[..|ids| - 1]);
    }
  }

  lemma ProvenStays(env: Env, s: State, s': State, wid: WithdrawalId, createdAt: Time, why: Evidence)
    requires Proven(env, s, wid, createdAt, why) && Later(s, s')
    ensures Proven(env, s', wid, createdAt, why)
  {
    if wid in s'.payouts {
      assert LaterPayout(s, s', wid);
    }
  }

  /** Whatever a call knows before a commit it still knows after any steps of other calls. */
  lemma KnownStays(env: Env, s: State, s': State, f: Flow)
    requires Known(env, s, f) && Later(s, s')
    ensures Known(env, s', f)
  {
    if f.Cashout? {
      ReservedStays(s.db.holds, s'.db.holds, f.ids);
    } else if f.Reverse? {
      ProvenStays(env, s, s', f.wid, f.withdrawal.createdAt, f.why);
    }
  }

  lemma ReadStays(s: State, s': State, wallet: WalletId, read: Snapshot)
    requires WalletRead(s, wallet, read) && Later(s, s')
    ensures WalletRead(s', wallet, read)
    ensures forall ts :: StampedAfter(s, wallet, read, ts) ==> StampedAfter(s', wallet, read, ts)
  {
    assert s'.hist[wallet][..read.version] == s.hist[wallet][..read.version];
  }

  // ---- what other calls never touch ----

  /** What belongs to a running call: the payouts it may still ask, the deposits it runs. */
  ghost predicate KeptFor(env: Env, me: CallId, s: State, s': State) {
    && (forall wid :: wid in s.payer && s.payer[wid] == me ==> wid in s'.payer && s'.payer[wid] == me)
    && (forall txid :: txid in s.holder && s.holder[txid] == me ==> txid in s'.holder && s'.holder[txid] == me)
    && (forall txid :: env.exclusive && txid in s.holder && s.holder[txid] == me ==> DepositKept(s, s', txid))
  }

  ghost predicate DepositKept(s: State, s': State, txid: Txid) {
    && (txid in s.db.deposits ==> txid in s'.db.deposits && s'.db.deposits[txid] == s.db.deposits[txid])
    && (DepositKey(txid) in s'.db.guards <==> DepositKey(txid) in s.db.guards)
  }

  /** Everything call `me` may rely on about the steps other calls take. */
  ghost predicate Rely(env: Env, me: CallId, s: State, s': State) {
    Later(s, s') && KeptFor(env, me, s, s')
  }

  lemma PostKeepsFor(env: Env, me: CallId, c: CallId, s: State, f: Flow, read: Snapshot, sk: SortKey, answered: bool)
    requires RowsKnowPayer(s) && CanPost(env, c, s, f, read, sk) && c != me
    ensures KeptFor(env, me, s, AfterPost(env, c, s, f, read, sk, answered))
  {
    Footprint(env, f);
    if f.PayOut? {
      assert MutationOf(env, f).withdrawals[f.wid] == PutWithdrawalRow(f.withdrawal);
    }
    var s' := AfterPost(env, c, s, f, read, sk, answered);
    forall txid | env.exclusive && txid in s.holder && s.holder[txid] == me ensures DepositKept(s, s', txid) {
      PostKeepsDeposit(env, me, c, s, f, read, sk, answered, txid);
    }
  }

  lemma PostKeepsDeposit(env: Env, me: CallId, c: CallId, s: State, f: Flow, read: Snapshot, sk: SortKey, answered: bool,
      txid: Txid)
    requires CanPost(env, c, s, f, read, sk) && c != me && env.exclusive && txid in s.holder && s.holder[txid] == me
    ensures DepositKept(s, AfterPost(env, c, s, f, read, sk, answered), txid)
  {
    Footprint(env, f);
  }

  /** A payout permission belongs to an existing row. */
  ghost predicate RowsKnowPayer(s: State) {
    forall wid :: wid in s.payer ==> wid in s.db.withdrawals
  }

  /** No other call's action is more than `Rely` allows. */
  lemma StepRelied(env: Env, me: CallId, c: CallId, a: Action, s: State)
    requires s.hist.Keys == s.db.wallets.Keys && RowsKnowPayer(s) && Enabled(env, c, a, s) && c != me
    ensures Rely(env, me, s, Effect(env, c, a, s))
  {
    StepGrows(env, c, a, s);
    if a.Post? {
      PostKeepsFor(env, me, c, s, a.flow, a.read, a.sk, a.answered);
    } else {
      OtherKeepsFor(env, me, c, a, s);
    }
  }

  lemma OtherKeepsTokens(env: Env, me: CallId, c: CallId, a: Action, s: State)
    requires Enabled(env, c, a, s) && c != me && !a.Post?
    ensures var s' := Effect(env, c, a, s);
            && (forall wid :: wid in s.payer && s.payer[wid] == me ==> wid in s'.payer && s'.payer[wid] == me)
            && (forall txid :: txid in s.holder && s.holder[txid] == me ==> txid in s'.holder && s'.holder[txid] == me)
  {
  }

  lemma OtherKeepsDeposit(env: Env, me: CallId, c: CallId, a: Action, s: State, txid: Txid)
    requires Enabled(env, c, a, s) && c != me && !a.Post? && env.exclusive && txid in s.holder && s.holder[txid] == me
    ensures DepositKept(s, Effect(env, c, a, s), txid)
  {
    hide Known, Commits, Proven;
  }

  lemma OtherKeepsFor(env: Env, me: CallId, c: CallId, a: Action, s: State)
    requires Enabled(env, c, a, s) && c != me && !a.Post?
    ensures KeptFor(env, me, s, Effect(env, c, a, s))
  {
    OtherKeepsTokens(env, me, c, a, s);
    forall txid | env.exclusive && txid in s.holder && s.holder[txid] == me ensures DepositKept(s, Effect(env, c, a, s), txid) {
      OtherKeepsDeposit(env, me, c, a, s, txid);
    }
  }

  lemma RelyTrans(env: Env, me: CallId, s: State, t: State, u: State)
    requires Rely(env, me, s, t) && Rely(env, me, t, u)
    ensures Rely(env, me, s, u)
  {
    LaterTrans(s, t, u);
  }
}
