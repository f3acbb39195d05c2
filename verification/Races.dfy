/** Runs that go wrong, and with them the exact conditions under which no run does. Each run below is
    one the code can take: two reconcile passes, two overlapping confirmations, a midnight. */
module Races {
  import opened Rows
  import opened Limits
  import opened Store
  import opened System
  import opened Ledger
  import opened Withdrawals
  import opened Deposits
  import opened Slots
  import opened Runs

  // ---- building blocks: one user, one real wallet, one withdrawal, one deposit, all named X ----

  const X := "x"
  const RETIRED := "retired"
  const H := HoldId(X, X)
  const W := WithdrawalId(X, X)
  const D := Txid(X, X)
  const OLD := HoldRow(RETIRED, X, 100, X, Held)

  function Row(createdAt: Time): WithdrawalRow { WithdrawalRow(X, X, 100, X, Processing, createdAt) }

  function Empty(): State {
    State(Db(map[], map[], map[], map[], map[], map[], map[H := OLD], map[]), 0,
          map[], map[], {}, {}, {}, {}, map[], map[], map[], map[], {}, {}, {})
  }

  // one lemma per action keeps each step small

  lemma DoOpenWallet(env: Env, s: State)
    requires Reachable(env, s) && CanOpenWallet(s, X, Real, X)
    ensures Reachable(env, AfterOpenWallet(s, X, Real, X, NO_OVERRIDES))
  {
    ReachStep(env, 0, OpenWallet(X, Real, X, NO_OVERRIDES), s);
  }

  lemma DoPost(env: Env, c: CallId, s: State, f: Flow, read: Snapshot, sk: SortKey)
    requires Reachable(env, s) && CanPost(env, c, s, f, read, sk)
    ensures Reachable(env, AfterPost(env, c, s, f, read, sk, true))
  {
    ReachStep(env, c, Post(f, read, sk, true), s);
  }

  lemma DoAskPayout(env: Env, c: CallId, s: State)
    requires Reachable(env, s) && W in s.payer && s.payer[W] == c
    ensures Reachable(env, AfterAskPayout(s, W))
  {
    ReachStep(env, c, AskPayout(W), s);
  }

  lemma DoPayout(env: Env, s: State)
    requires Reachable(env, s) && CanAcceptPayout(env, s, W)
    ensures Reachable(env, AfterAcceptPayout(s, W))
  {
    ReachStep(env, 0, AcceptPayout(W), s);
  }

  lemma DoSettle(env: Env, s: State)
    requires Reachable(env, s) && W in s.payouts && s.payouts[W].status == PayoutProcessing
    ensures Reachable(env, AfterSettlePayout(s, W, true))
  {
    ReachStep(env, 0, SettlePayout(W, true), s);
  }

  lemma DoSet(env: Env, s: State, to: WithdrawalStatus, why: Evidence)
    requires Reachable(env, s) && CanSetWithdrawal(env, s, W, to, why)
    ensures Reachable(env, AfterSetWithdrawal(s, W, to))
  {
    ReachStep(env, 3, SetWithdrawal(W, to, why), s);
  }

  lemma DoMark(env: Env, s: State, slot: Option<Counters>)
    requires Reachable(env, s) && CanMarkReversed(env, s, W, slot)
    ensures Reachable(env, AfterMarkReversed(s, W, slot))
  {
    ReachStep(env, 2, MarkReversed(W, slot), s);
  }

  lemma DoPutDeposit(env: Env, s: State, row: DepositRow)
    requires Reachable(env, s) && CanPutDeposit(s, D, row)
    ensures Reachable(env, AfterPutDeposit(s, D, row))
  {
    ReachStep(env, 1, PutDeposit(D, row), s);
  }

  /** The deposit claimed by call c, its charge opened and paid. */
  lemma DoCharge(env: Env, c: CallId, s: State, amount: nat) returns (s': State)
    requires Reachable(env, s) && D in s.db.deposits && s.db.deposits[D].amount == amount && D !in s.charges && D !in s.holder
    ensures Reachable(env, s')
    ensures s' == s.(holder := s.holder[D := c], chargeAsks := s.chargeAsks + {(D, amount)},
                     charges := s.charges[D := Charge(amount, Some(amount))])
  {
    hide OneWallet, StampedAfter, Reachable, Enabled;
    ReachStep(env, c, ClaimDeposit(D), s);
    var s1 := s.(holder := s.holder[D := c]);
    DoOpenCharge(env, c, s1, amount);
    var s2 := s1.(chargeAsks := s.chargeAsks + {(D, amount)}, charges := s.charges[D := Charge(amount, None)]);
    DoPayCharge(env, s2, amount);
    s' := s2.(charges := s2.charges[D := s2.charges[D].(paid := Some(amount))]);
  }

  lemma DoOpenCharge(env: Env, c: CallId, s: State, amount: nat)
    requires Reachable(env, s) && D in s.db.deposits && s.db.deposits[D].amount == amount && D !in s.charges
    ensures Reachable(env, s.(chargeAsks := s.chargeAsks + {(D, amount)}, charges := s.charges[D := Charge(amount, None)]))
  {
    ReachStep(env, c, OpenCharge(D, amount), s);
  }

  lemma DoPayCharge(env: Env, s: State, amount: nat)
    requires Reachable(env, s) && D in s.charges && s.charges[D].paid.None?
    ensures Reachable(env, s.(charges := s.charges[D := s.charges[D].(paid := Some(amount))]))
  {
    ReachStep(env, 0, PayCharge(D, amount), s);
  }

  /** Time passes, or has already passed. */
  lemma WaitUntil(env: Env, s: State, time: Time)
    requires Reachable(env, s) && s.clock <= time
    ensures Reachable(env, s.(clock := time))
  {
    if s.clock < time {
      ReachStep(env, 0, Tick(time), s);
    } else {
      assert s == s.(clock := time);
    }
  }

  /** The one wallet, after `n` commits that left `balance`, all stamped before `time`. */
  ghost predicate OneWallet(s: State, balance: nat, n: nat, time: Time) {
    && s.db.wallets.Keys == {X} && s.db.wallets[X] == Wallet(X, Real, balance, Some(n), NO_OVERRIDES)
    && s.db.markers.Keys == {Owner(X, Real)} && s.db.markers[Owner(X, Real)] == X
    && s.hist.Keys == {X} && |s.hist[X]| == n && Total(s.hist[X]) == balance
    && (forall i :: 0 <= i < n ==> s.hist[X][i].sk.ts < time)
    && (forall k :: k in s.db.ledger ==> k.sk.ts < time)
  }

  /** One more commit on it: when it is possible, and what it leaves. */
  lemma OneMore(env: Env, c: CallId, s: State, f: Flow, balance: nat, n: nat, id: string) returns (s': State)
    requires Reachable(env, s) && OneWallet(s, balance, n, s.clock) && Known(env, s, f)
        && (f.ConfirmDeposit? ==> MayRun(env, c, s, f.txid))
    requires var m := MutationOf(env, f);
             m.wallet == X && m.key !in s.db.guards && SideConditions(s.db, m) && balance + Signed(m) >= 0
    ensures Commits(s, MutationOf(env, f), Snapshot(balance, n), SortKey(s.clock, id))
    ensures s' == AfterPost(env, c, s, f, Snapshot(balance, n), SortKey(s.clock, id), true)
    ensures Reachable(env, s') && OneWallet(s', balance + Signed(MutationOf(env, f)), n + 1, s.clock + 1)
  {
    hide Commits, Reachable, AfterCommit, Signed;
    CommitOnOneWallet(s, MutationOf(env, f), balance, n, id);
    DoPost(env, c, s, f, Snapshot(balance, n), SortKey(s.clock, id));
    s' := AfterPost(env, c, s, f, Snapshot(balance, n), SortKey(s.clock, id), true);
    SameOneWallet(AfterCommit(s, MutationOf(env, f), Snapshot(balance, n), SortKey(s.clock, id)), s',
                  balance + Signed(MutationOf(env, f)), n + 1, s.clock + 1);
  }

  lemma SameOneWallet(s: State, s': State, balance: nat, n: nat, time: Time)
    requires OneWallet(s, balance, n, time) && s'.db == s.db && s'.hist == s.hist
    ensures OneWallet(s', balance, n, time)
  {
  }

  lemma CommitOnOneWallet(s: State, m: Mutation, balance: nat, n: nat, id: string)
    requires OneWallet(s, balance, n, s.clock)
    requires m.wallet == X && m.key !in s.db.guards && SideConditions(s.db, m) && balance + Signed(m) >= 0
    ensures Commits(s, m, Snapshot(balance, n), SortKey(s.clock, id))
    ensures OneWallet(AfterCommit(s, m, Snapshot(balance, n), SortKey(s.clock, id)), balance + Signed(m), n + 1, s.clock + 1)
  {
    var read, sk := Snapshot(balance, n), SortKey(s.clock, id);
    ReadOfOneWallet(s, balance, n, id);
    TotalAppend(s.hist[X], EntryFor(m, read, sk));
  }

  lemma ReadOfOneWallet(s: State, balance: nat, n: nat, id: string)
    requires OneWallet(s, balance, n, s.clock)
    ensures WalletRead(s, X, Snapshot(balance, n)) && StampedAfter(s, X, Snapshot(balance, n), s.clock)
    ensures LedgerKey(X, SortKey(s.clock, id)) !in s.db.ledger
  {
    assert s.hist[X][..n] == s.hist[X];
  }

  /** No withdrawal, no deposit, no counters, and nothing at the rail. */
  ghost predicate Quiet(s: State) {
    && W !in s.db.withdrawals && D !in s.db.deposits && X !in s.db.counters
    && W !in s.payouts && W !in s.payoutAsks && D !in s.charges && D !in s.holder
    && WithdrawKey(W) !in s.db.guards && ReverseKey(W) !in s.db.guards && DepositKey(D) !in s.db.guards
  }

  /** A wallet that holds 100: the release of a hold opened on a wallet since retired. */
  lemma Funded(env: Env) returns (s: State)
    ensures Reachable(env, s) && s.clock == 0 && OneWallet(s, 100, 1, 1) && Quiet(s)
  {
    hide Commits, Known, SideConditions, Quiet, Reachable, OneWallet, MutationOf, Signed, AfterPost;
    var s0 := Opened(env);
    var f := ReleaseHold(H, OLD, X);
    ReleaseReady(env, s0);
    s := OneMore(env, 0, s0, f, 0, 0, X);
    ReleaseStaysQuiet(env, s0, f, Snapshot(0, 0), SortKey(0, X));
  }

  lemma ReleaseReady(env: Env, s: State)
    requires OneWallet(s, 0, 0, 0) && H in s.db.holds && s.db.holds[H] == OLD
    ensures var m := MutationOf(env, ReleaseHold(H, OLD, X));
            Known(env, s, ReleaseHold(H, OLD, X)) && SideConditions(s.db, m) && m.wallet == X && m.key == ReleaseKey(H) && Signed(m) == 100
  {
  }

  lemma ReleaseStaysQuiet(env: Env, s: State, f: Flow, read: Snapshot, sk: SortKey)
    requires f.ReleaseHold? && Commits(s, MutationOf(env, f), read, sk) && Quiet(s)
    ensures Quiet(AfterPost(env, 0, s, f, read, sk, true)) && AfterPost(env, 0, s, f, read, sk, true).clock == s.clock
  {
  }

  lemma Opened(env: Env) returns (s: State)
    ensures Reachable(env, s) && s.clock == 0 && OneWallet(s, 0, 0, 0) && Quiet(s)
    ensures H in s.db.holds && s.db.holds[H] == OLD && ReleaseKey(H) !in s.db.guards
  {
    var s0 := Empty();
    ReachInit(env, s0);
    DoOpenWallet(env, s0);
    s := AfterOpenWallet(s0, X, Real, X, NO_OVERRIDES);
  }

  /** The withdrawal, committed by call 1 and counted on the day of `now`. */
  ghost predicate PaidOut(env: Env, s: State, now: Time, createdAt: Time) {
    && Reachable(env, s) && s.clock == createdAt && OneWallet(s, 0, 2, createdAt + 1)
    && W in s.db.withdrawals && s.db.withdrawals[W] == Row(createdAt)
    && X in s.db.counters && s.db.counters[X] == Counters(env.dayOf(now), 0, 100, 1)
    && W !in s.payouts && W !in s.payoutAsks && W in s.payer && s.payer[W] == 1
    && D !in s.db.deposits && D !in s.charges && D !in s.holder
    && ReverseKey(W) !in s.db.guards && DepositKey(D) !in s.db.guards
  }

  lemma PayOutReady(env: Env, s: State, now: Time)
    requires OneWallet(s, 100, 1, s.clock) && Quiet(s) && now <= s.clock
    requires env.sameDay ==> env.dayOf(now) == env.dayOf(s.clock)
    ensures var f := PayOut(W, Row(s.clock), None, now);
            var m := MutationOf(env, f);
            Known(env, s, f) && m.wallet == X && m.key !in s.db.guards && SideConditions(s.db, m) && 100 + Signed(m) == 0
  {
  }

  lemma PayOutOnce(env: Env, now: Time, createdAt: Time) returns (s: State)
    requires now <= createdAt && 0 < createdAt && (env.sameDay ==> env.dayOf(now) == env.dayOf(createdAt))
    ensures PaidOut(env, s, now, createdAt)
  {
    var s0 := Funded(env);
    WaitUntil(env, s0, createdAt);
    var s1 := s0.(clock := createdAt);
    var f := PayOut(W, Row(createdAt), None, now);
    PayOutReady(env, s1, now);
    s := OneMore(env, 1, s1, f, 100, 1, X);
    PayOutLeaves(env, s1, now, Snapshot(100, 1), SortKey(createdAt, X));
  }

  lemma PayOutLeaves(env: Env, s: State, now: Time, read: Snapshot, sk: SortKey)
    requires Quiet(s)
    requires var f := PayOut(W, Row(s.clock), None, now); Commits(s, MutationOf(env, f), read, sk)
    ensures var f := PayOut(W, Row(s.clock), None, now);
            var s' := AfterPost(env, 1, s, f, read, sk, true);
            && W in s'.db.withdrawals && s'.db.withdrawals[W] == Row(s.clock)
            && X in s'.db.counters && s'.db.counters[X] == Counters(env.dayOf(now), 0, 100, 1)
            && W in s'.payer && s'.payer[W] == 1 && s'.clock == s.clock
            && W !in s'.payouts && W !in s'.payoutAsks && D !in s'.db.deposits && D !in s'.charges && D !in s'.holder
            && ReverseKey(W) !in s'.db.guards && DepositKey(D) !in s'.db.guards
  {
    PayOutAddsRow(env, s, PayOut(W, Row(s.clock), None, now), read, sk);
  }

  /** The withdrawal credited back. */
  lemma CreditBack(env: Env, s: State, createdAt: Time, why: Evidence) returns (s': State)
    requires Reachable(env, s) && OneWallet(s, 0, 2, s.clock) && ReverseKey(W) !in s.db.guards
    requires W in s.db.withdrawals && s.db.withdrawals[W] == Row(createdAt) && Proven(env, s, W, createdAt, why)
    ensures Reachable(env, s') && ReverseKey(W) in s'.db.guards && OneWallet(s', 100, 3, s.clock + 1)
    ensures s'.db.guards.Keys == s.db.guards.Keys + {ReverseKey(W)}
    ensures s'.db.withdrawals == s.db.withdrawals && s'.db.counters == s.db.counters && s'.db.deposits == s.db.deposits
    ensures s'.payouts == s.payouts && s'.charges == s.charges && s'.holder == s.holder && s'.clock == s.clock
  {
    var f := Reverse(W, Row(createdAt), why);
    assert Known(env, s, f) && SideConditions(s.db, MutationOf(env, f));
    s' := OneMore(env, 2, s, f, 0, 2, X);
    ReverseLeaves(env, s, f, Snapshot(0, 2), SortKey(s.clock, X));
  }

  lemma ReverseLeaves(env: Env, s: State, f: Flow, read: Snapshot, sk: SortKey)
    requires f.Reverse? && Commits(s, MutationOf(env, f), read, sk)
    ensures var s' := AfterPost(env, 2, s, f, read, sk, true);
            && s'.db.guards.Keys == s.db.guards.Keys + {ReverseKey(f.wid)}
            && s'.db.withdrawals == s.db.withdrawals && s'.db.counters == s.db.counters && s'.db.deposits == s.db.deposits
            && s'.payouts == s.payouts && s'.charges == s.charges && s'.holder == s.holder && s'.clock == s.clock
  {
  }

  // ---- paid and credited back ----

  ghost predicate PaidByRail(s: State, wid: WithdrawalId) { wid in s.payouts && s.payouts[wid].status == PayoutDone }

  ghost predicate CreditedBack(s: State, wid: WithdrawalId) { ReverseKey(wid) in s.db.guards }

  ghost predicate NeverBoth(env: Env) {
    forall s, wid :: Reachable(env, s) && PaidByRail(s, wid) ==> !CreditedBack(s, wid)
  }

  /** A reconcile pass asks the rail, hears "unknown", and only then measures the row's age. The rail
      accepts the payout in between: at the last moment of its window, after the pass asked. */
  lemma PaidAndReversed(env: Env) returns (s: State)
    requires 0 < env.window && !GraceCovers(env)
    ensures Reachable(env, s) && PaidByRail(s, W) && CreditedBack(s, W)
    ensures W in s.db.withdrawals && s.db.withdrawals[W] == Row(1)
    ensures X in s.db.counters && s.db.counters[X] == Counters(env.dayOf(1), 0, 100, 1)
  {
    var s0 := PayOutOnce(env, 1, 1);
    DoAskPayout(env, 1, s0);
    var s1 := AfterAskPayout(s0, W);
    var asked := env.window;
    WaitUntil(env, s1, asked);
    var s2 := s1.(clock := asked);
    DoPayout(env, s2);
    var s3 := AfterAcceptPayout(s2, W);
    var checked := Max(asked, 1 + PAYOUT_GRACE);
    WaitUntil(env, s3, checked);
    var s4 := s3.(clock := checked);
    var s5 := CreditBack(env, s4, 1, UnknownAt(asked, checked));
    DoSettle(env, s5);
    s := AfterSettlePayout(s5, W, true);
  }

  /** No withdrawal is ever both paid and credited back exactly when the rail stops accepting early
      enough: its acceptance window and the time between its answer and the age check fit in the grace. */
  lemma NeverBothExactly(env: Env)
    requires 0 < env.window
    ensures NeverBoth(env) <==> GraceCovers(env)
  {
    if GraceCovers(env) {
      forall s, wid | Reachable(env, s) && PaidByRail(s, wid) ensures !CreditedBack(s, wid) {
        ReachableInv(env, s);
        assert wid in s.db.withdrawals ==> RowOk(s, wid);
        assert PayoutOk(env, s, wid);
      }
    } else {
      var s := PaidAndReversed(env);
    }
  }

  // ---- credited and refunded ----

  ghost predicate NeverCreditedAndRefunded(env: Env) {
    forall s, txid :: Reachable(env, s) && DepositKey(txid) in s.db.guards ==> txid !in s.refunded
  }

  /** Two confirmations of one deposit overlap. The first credits it; the second finds the day's cap used
      up by that very credit, loses its rejection, re-reads the row as confirmed and refunds it. */
  lemma CreditedAndRefunded(env: Env) returns (s: State)
    requires !env.exclusive
    ensures Reachable(env, s) && DepositKey(D) in s.db.guards && D in s.refunded
    ensures D in s.db.deposits && s.db.deposits[D].status == RefundPending
  {
    var s0, row := CreditedToTheCap(env);
    s := RefundCredited(env, s0, row);
  }

  /** No overlap at all. Call 1 credits a deposit that uses up the day's cap, and ends. Call 2, a repeated wake-up,
      reads the row stale, as still pending, and the counters as they are: it finds the cap used up by the credit of
      the very deposit it holds for uncredited, loses its rejection, re-reads the row as confirmed and refunds it. */
  lemma CreditedThenRefunded(env: Env) returns (s: State)
    requires !env.freshReads
    ensures Reachable(env, s) && DepositKey(D) in s.db.guards && D in s.refunded
    ensures D in s.db.deposits && s.db.deposits[D].status == RefundPending
  {
    var s0, row := CreditedToTheCap(env);
    ReachStep(env, 1, DropDeposit(D), s0);
    var s1 := s0.(holder := s0.holder - {D});
    ReachStep(env, 2, ClaimDeposit(D), s1);
    var s2 := s1.(holder := s1.holder[D := 2]);
    s := RefundCredited(env, s2, row);
  }

  /** Call 1 has credited a deposit as large as the day's cap: no deposit of that amount passes the cap any more. */
  lemma CreditedToTheCap(env: Env) returns (s: State, row: DepositRow)
    ensures Reachable(env, s) && DepositKey(D) in s.db.guards && D in s.holder && s.holder[D] == 1
    ensures D in s.db.deposits && s.db.deposits[D] == row.(status := Confirmed)
    ensures D in s.charges && s.charges[D].paid == Some(row.amount)
    ensures X in s.db.wallets && X in s.db.counters
    ensures CheckDailyDeposit(LimitsOf(s.db, X), CurrentFor(Some(s.db.counters[X]), env.dayOf(0)), row.amount, env.dayOf(0)).Some?
  {
    row := DepositRow(X, X, DEFAULT_DAILY_DEPOSIT_CAP, Pending);
    var s0 := Opened(env);
    DoPutDeposit(env, s0, row);
    var s1 := AfterPutDeposit(s0, D, row);
    var s2 := DoCharge(env, 1, s1, row.amount);
    s := Confirm(env, 1, s2, row, None, 0, 0, 0);
  }

  /** The deposit confirmed, as the day's first. */
  lemma Confirm(env: Env, c: CallId, s: State, row: DepositRow, prev: Option<Counters>, now: Time, balance: nat,
      n: nat) returns (s': State)
    requires Reachable(env, s) && OneWallet(s, balance, n, s.clock) && DepositKey(D) !in s.db.guards && now <= s.clock
    requires row == DepositRow(X, X, row.amount, Pending) && row.amount <= DEFAULT_DAILY_DEPOSIT_CAP
    requires D in s.db.deposits && s.db.deposits[D] == row && D in s.charges && s.charges[D].paid == Some(row.amount)
    requires D in s.holder && s.holder[D] == c
    requires if prev.None? then X !in s.db.counters else X in s.db.counters && s.db.counters[X] == prev.value && prev.value.day < env.dayOf(now)
    ensures Reachable(env, s') && DepositKey(D) in s'.db.guards && s.db.guards.Keys <= s'.db.guards.Keys
    ensures D in s'.db.deposits && s'.db.deposits[D] == row.(status := Confirmed) && s'.charges == s.charges
    ensures X in s'.db.counters && s'.db.counters[X] == Counters(env.dayOf(now), row.amount, 0, 0)
    ensures s'.db.withdrawals == s.db.withdrawals && X in s'.db.wallets && s'.db.wallets[X].overrides == NO_OVERRIDES
    ensures s'.holder == s.holder
  {
    hide Quiet, Reachable, Commits;
    var f := ConfirmDeposit(D, row, prev, now);
    s' := OneMore(env, c, s, f, balance, n, X);
    ConfirmMovesRow(env, s, f, Snapshot(balance, n), SortKey(s.clock, X));
  }

  /** What call 2 does once it has found the cap breached and lost its rejection to a confirmation. */
  lemma RefundCredited(env: Env, s: State, row: DepositRow) returns (s': State)
    requires Reachable(env, s) && !Alone(env) && MayRun(env, 2, s, D) && D in s.db.deposits && s.db.deposits[D].status == Confirmed
    requires D in s.charges && s.charges[D].paid == Some(row.amount)
    ensures Reachable(env, s') && s'.db.guards == s.db.guards && D in s'.refunded
    ensures D in s'.db.deposits && s'.db.deposits[D].status == RefundPending
  {
    hide CanAskRefund, Reachable;
    ReachStep(env, 2, MoveDeposit(D, Confirmed, RefundPending), s);
    var s1 := AfterMoveDeposit(s, D, Confirmed, RefundPending);
    ReachStep(env, 2, AskRefund(D, row.amount), s1);
    var s2 := s1.(refundAsks := s1.refundAsks + {(D, row.amount)});
    assert (D, row.amount) in s2.refundAsks;
    ReachStep(env, 0, AcceptRefund(D), s2);
    s' := s2.(refunded := s2.refunded + {D});
  }

  /** A deposit is never both credited and refunded exactly when calls on one deposit never overlap and each reads
      what the ones before it wrote. */
  lemma NeverCreditedAndRefundedExactly(env: Env)
    ensures NeverCreditedAndRefunded(env) <==> env.exclusive && env.freshReads
  {
    if env.exclusive && env.freshReads {
      forall s, txid | Reachable(env, s) && DepositKey(txid) in s.db.guards ensures txid !in s.refunded {
        ReachableInv(env, s);
        assert forall t, amount: nat :: (t, amount) in s.refundAsks ==> RefundAskOk(s, (t, amount));
      }
    } else if !env.exclusive {
      var s := CreditedAndRefunded(env);
    } else {
      var s := CreditedThenRefunded(env);
    }
  }

  // ---- a slot returned that was not taken ----

  /** No reversal gives back a slot the day's counters do not hold: neither clamp at zero ever fires. */
  ghost predicate ClampsNeverFire(env: Env) {
    forall s, wid, c :: ClampIdle(env, s, wid, c)
  }

  ghost predicate ClampIdle(env: Env, s: State, wid: WithdrawalId, c: Counters) {
    Reachable(env, s) && CanMarkReversed(env, s, wid, Some(c)) ==>
        c.withdrawCount >= 1 && c.withdrawSum >= s.db.withdrawals[wid].amount
  }

  ghost predicate ClampFires(env: Env, s: State, wid: WithdrawalId, c: Counters) {
    Reachable(env, s) && CanMarkReversed(env, s, wid, Some(c)) && c.withdrawCount == 0 && !ClampIdle(env, s, wid, c)
  }

  /** A late completion overwrites the reversed mark of a withdrawal that was paid after all. */
  lemma SlotTwiceAfterPayment(env: Env) returns (s: State, c: Counters)
    requires 0 < env.window && !GraceCovers(env)
    ensures ClampFires(env, s, W, c)
  {
    var s0 := PaidAndReversed(env);
    var slot := Some(Counters(env.dayOf(1), 0, 100, 1));
    DoMark(env, s0, slot);
    var s1 := AfterMarkReversed(s0, W, slot);
    DoSet(env, s1, Completed, RailFailed);
    s, c := AfterSetWithdrawal(s1, W, Completed), Counters(env.dayOf(1), 0, 0, 0);
  }

  /** A pass whose credit answer was lost records "reversal failed" over another pass's reversed mark. */
  lemma SlotTwiceAfterLostAnswer(env: Env) returns (s: State, c: Counters)
    requires !env.creditsSucceed
    ensures ClampFires(env, s, W, c)
  {
    var s0 := NeverAsked(env);
    var slot := Some(Counters(env.dayOf(1), 0, 100, 1));
    DoMark(env, s0, slot);
    var s1 := AfterMarkReversed(s0, W, slot);
    DoSet(env, s1, ReversalFailed, UnknownAt(s1.clock, s1.clock));
    s, c := AfterSetWithdrawal(s1, W, ReversalFailed), Counters(env.dayOf(1), 0, 0, 0);
  }

  /** A withdrawal whose call crashed before it asked the rail, credited back after the grace. */
  lemma NeverAsked(env: Env) returns (s: State)
    ensures Reachable(env, s) && ReverseKey(W) in s.db.guards && s.clock == 1 + PAYOUT_GRACE && W !in s.payouts
    ensures W in s.db.withdrawals && s.db.withdrawals[W] == Row(1)
    ensures X in s.db.counters && s.db.counters[X] == Counters(env.dayOf(1), 0, 100, 1)
  {
    var s0 := PayOutOnce(env, 1, 1);
    var at := 1 + PAYOUT_GRACE;
    WaitUntil(env, s0, at);
    s := CreditBack(env, s0.(clock := at), 1, UnknownAt(at, at));
  }

  /** Counted just before midnight, created just after: the slot is given back on the next day, which
      never held it. */
  lemma SlotOnTheWrongDay(env: Env, before: Time, after: Time) returns (s: State, c: Counters)
    requires !env.sameDay && before < after && env.dayOf(before) < env.dayOf(after)
    ensures ClampFires(env, s, W, c)
  {
    var s0 := CountedBeforeMidnight(env, before, after);
    s := NextDayDeposit(env, s0, before, after);
    c := Counters(env.dayOf(after), 100, 0, 0);
  }

  lemma CountedBeforeMidnight(env: Env, before: Time, after: Time) returns (s: State)
    requires !env.sameDay && before < after
    ensures Reachable(env, s) && after < s.clock && OneWallet(s, 100, 3, s.clock) && ReverseKey(W) in s.db.guards
    ensures X in s.db.counters && s.db.counters[X] == Counters(env.dayOf(before), 0, 100, 1)
    ensures W in s.db.withdrawals && s.db.withdrawals[W] == Row(after)
    ensures D !in s.db.deposits && D !in s.holder && D !in s.charges && DepositKey(D) !in s.db.guards
  {
    hide Reachable, DepositCond;
    var s0 := PayOutOnce(env, before, after);
    var at := after + PAYOUT_GRACE;
    WaitUntil(env, s0, at);
    var s1 := CreditBack(env, s0.(clock := at), after, UnknownAt(at, at));
    WaitUntil(env, s1, at + 1);
    s := s1.(clock := at + 1);
  }

  lemma NextDayDeposit(env: Env, s: State, before: Time, after: Time) returns (s': State)
    requires Reachable(env, s) && before < after < s.clock && env.dayOf(before) < env.dayOf(after)
    requires OneWallet(s, 100, 3, s.clock) && X in s.db.counters && s.db.counters[X] == Counters(env.dayOf(before), 0, 100, 1)
    requires D !in s.db.deposits && D !in s.holder && D !in s.charges && DepositKey(D) !in s.db.guards
    ensures Reachable(env, s') && s'.db.withdrawals == s.db.withdrawals && s.db.guards.Keys <= s'.db.guards.Keys
    ensures X in s'.db.counters && s'.db.counters[X] == Counters(env.dayOf(after), 100, 0, 0)
  {
    var row := DepositRow(X, X, 100, Pending);
    DoPutDeposit(env, s, row);
    var s1 := AfterPutDeposit(s, D, row);
    var s2 := DoCharge(env, 5, s1, 100);
    s' := Confirm(env, 5, s2, row, Some(s.db.counters[X]), after, 100, 3);
  }

  /** With a calendar that has a day boundary and a rail that accepts anything at all, slots are given
      back exactly as taken if and only if a withdrawal is counted on its creation day, no reversal credit
      is reported as failed, and the rail stops accepting within the grace. */
  lemma ClampsNeverFireExactly(env: Env, before: Time, after: Time)
    requires Calendar(env) && 0 < env.window && before < after && env.dayOf(before) < env.dayOf(after)
    ensures ClampsNeverFire(env) <==> env.sameDay && env.creditsSucceed && GraceCovers(env)
  {
    if !GraceCovers(env) {
      var s, c := SlotTwiceAfterPayment(env);
    } else if !env.creditsSucceed {
      var s, c := SlotTwiceAfterLostAnswer(env);
    } else if !env.sameDay {
      var s, c := SlotOnTheWrongDay(env, before, after);
    } else {
      ClampsCannotFire(env);
    }
  }

  lemma ClampsCannotFire(env: Env)
    requires SlotsExact(env)
    ensures ClampsNeverFire(env)
  {
    forall s, wid, c ensures ClampIdle(env, s, wid, c) {
      if Reachable(env, s) && CanMarkReversed(env, s, wid, Some(c)) {
        ReachableInv(env, s);
        NoClamp(env, s, wid, Some(c));
      }
    }
  }
}
