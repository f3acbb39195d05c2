/** The daily counters: exact and within their limits under concurrency, although their write only
    compares the value read. */
module DailyCounters {
  import opened Rows
  import opened Limits
  import opened Store
  import opened System
  import opened Ledger
  import opened Withdrawals
  import opened Deposits
  import opened Markers
  import opened Sums

  /** A deposit's share of its user's sum on one day. */
  ghost function DayTerm(s: State, user: UserId, day: Day, txid: Txid): int {
    if txid in s.countedOn && s.countedOn[txid] == day && txid in s.db.deposits && s.db.deposits[txid].user == user
    then s.db.deposits[txid].amount else 0
  }

  ghost function DepositedOn(s: State, user: UserId, day: Day): int {
    Sum(s.countedOn.Keys, txid => DayTerm(s, user, day, txid))
  }

  predicate WithinLimits(c: Counters, lim: DailyLimits) {
    0 <= c.depositSum <= lim.depositCap && 0 <= c.withdrawSum <= lim.withdrawCap && 0 <= c.withdrawCount <= lim.withdrawCount
  }

  ghost predicate CounterOk(env: Env, s: State, user: UserId)
    requires user in s.db.counters
  {
    var c := s.db.counters[user];
    && c.day <= env.dayOf(s.clock)
    && c.depositSum == DepositedOn(s, user, c.day)
    && Owner(user, Real) in s.db.markers && s.db.markers[Owner(user, Real)] in s.db.wallets
    && WithinLimits(c, LimitsOf(s.db, s.db.markers[Owner(user, Real)]))
  }

  /** A counted deposit is a credited one, counted on a day its user's counters have not left behind. */
  ghost predicate CountedOk(s: State, txid: Txid)
    requires txid in s.countedOn
  {
    && DepositKey(txid) in s.db.guards && txid in s.db.deposits
    && s.db.deposits[txid].user in s.db.counters && s.countedOn[txid] <= s.db.counters[s.db.deposits[txid].user].day
  }

  ghost predicate CountersInv(env: Env, s: State) {
    && (forall user :: user in s.db.counters ==> CounterOk(env, s, user))
    && (forall txid :: txid in s.countedOn ==> CountedOk(s, txid))
    && (forall txid :: DepositKey(txid) in s.db.guards ==> txid in s.countedOn)
  }

  // ---- frames ----

  lemma DepositedFrame(s: State, s': State, user: UserId, day: Day)
    requires s'.countedOn == s.countedOn
    requires forall txid :: txid in s.countedOn ==>
      txid in s.db.deposits && txid in s'.db.deposits && SameDeposit(s'.db.deposits[txid], s.db.deposits[txid])
    ensures DepositedOn(s', user, day) == DepositedOn(s, user, day)
  {
    SumSame(s.countedOn.Keys, txid => DayTerm(s, user, day, txid), txid => DayTerm(s', user, day, txid));
  }

  ghost predicate LimitsKept(s: State, s': State) {
    && (forall o :: o in s.db.markers ==> o in s'.db.markers && s'.db.markers[o] == s.db.markers[o])
    && (forall w :: w in s.db.wallets ==> w in s'.db.wallets && s'.db.wallets[w].overrides == s.db.wallets[w].overrides)
  }

  lemma CountersFrame(env: Env, s: State, s': State)
    requires Calendar(env) && CountersInv(env, s)
    requires s'.db.counters == s.db.counters && s'.countedOn == s.countedOn && s.clock <= s'.clock && LimitsKept(s, s')
    requires forall txid :: DepositKey(txid) in s'.db.guards <==> DepositKey(txid) in s.db.guards
    requires forall txid :: txid in s.db.deposits ==>
        txid in s'.db.deposits && SameDeposit(s'.db.deposits[txid], s.db.deposits[txid])
    ensures CountersInv(env, s')
  {
    forall txid | txid in s'.countedOn ensures CountedOk(s', txid) {
      assert CountedOk(s, txid);
    }
    forall user | user in s'.db.counters ensures CounterOk(env, s', user) {
      assert CounterOk(env, s, user);
      assert forall txid :: txid in s.countedOn ==> CountedOk(s, txid);
      DepositedFrame(s, s', user, s.db.counters[user].day);
      assert env.dayOf(s.clock) <= env.dayOf(s'.clock);
    }
  }

  // ---- the counter write inside a commit ----

  lemma OneCounter(t: map<UserId, Counters>, user: UserId, op: CounterOp)
    ensures CountersAfter(t, map[user := op]) == t[user := op.next]
  {
  }

  lemma CounterCommits(env: Env, s: State, f: Flow, read: Snapshot, sk: SortKey, user: UserId)
    requires (f.ConfirmDeposit? && user == f.deposit.user) || (f.PayOut? && user == f.withdrawal.user)
    requires Commits(s, MutationOf(env, f), read, sk)
    ensures var op := MutationOf(env, f).counters[user];
            && CounterCond(s.db.counters, user, op)
            && AfterCommit(s, MutationOf(env, f), read, sk).db.counters == s.db.counters[user := op.next]
  {
    var m := MutationOf(env, f);
    assert user in m.counters && CounterCond(s.db.counters, user, m.counters[user]);
    OneCounter(s.db.counters, user, m.counters[user]);
  }

  /** The new day is never earlier than the stored one. */
  lemma NextDayIsNoEarlier(env: Env, s: State, prev: Option<Counters>, now: Time, user: UserId, next: Counters)
    requires CounterCond(s.db.counters, user, CounterOp(prev, next)) && CounterRead(env, s, prev, now)
    ensures user in s.db.counters ==> s.db.counters[user].day <= env.dayOf(now)
  {
  }

  /** On the day being written, the deposits counted so far are what the current counters say. */
  lemma CurrentIsExact(env: Env, s: State, prev: Option<Counters>, now: Time, user: UserId, next: Counters)
    requires CountersInv(env, s)
    requires CounterCond(s.db.counters, user, CounterOp(prev, next)) && CounterRead(env, s, prev, now)
    ensures DepositedOn(s, user, env.dayOf(now)) == CurrentFor(prev, env.dayOf(now)).depositSum
  {
    var day := env.dayOf(now);
    if prev.Some? && prev.value.day == day {
      assert CounterOk(env, s, user);
    } else {
      forall txid | txid in s.countedOn ensures DayTerm(s, user, day, txid) == 0 {
        assert CountedOk(s, txid);
      }
      NoneThatDay(s, user, day);
    }
  }

  lemma NoneThatDay(s: State, user: UserId, day: Day)
    requires forall txid :: txid in s.countedOn ==> DayTerm(s, user, day, txid) == 0
    ensures DepositedOn(s, user, day) == 0
  {
    SumOfZeros(s.countedOn.Keys, txid => DayTerm(s, user, day, txid));
  }

  lemma CurrentWithin(c: Option<Counters>, day: Day, lim: DailyLimits)
    requires lim.depositCap > 0 && lim.withdrawCap > 0 && lim.withdrawCount > 0
    requires c.Some? ==> WithinLimits(c.value, lim)
    ensures WithinLimits(CurrentFor(c, day), lim)
  {
  }

  /** The new counters stay within the limits the flow checked. */
  lemma BumpWithinLimits(env: Env, s: State, f: Flow, user: UserId, w: WalletId)
    requires CountersInv(env, s) && MarkersInv(s) && Known(env, s, f) && OwnsWallet(s, user, Real, w)
    requires (f.ConfirmDeposit? && user == f.deposit.user && w == f.deposit.wallet)
        || (f.PayOut? && user == f.withdrawal.user && w == f.withdrawal.wallet)
    requires CounterCond(s.db.counters, user, MutationOf(env, f).counters[user])
    ensures WithinLimits(MutationOf(env, f).counters[user].next, LimitsOf(s.db, w))
    ensures MutationOf(env, f).counters[user].next.day == env.dayOf(f.now)
  {
    assert user in s.db.counters ==> CounterOk(env, s, user);
    CurrentWithin(f.prev, env.dayOf(f.now), LimitsOf(s.db, w));
  }

  // ---- deposits ----

  lemma ConfirmCounts(env: Env, c: CallId, s: State, f: Flow, read: Snapshot, sk: SortKey, answered: bool, user: UserId, day: Day)
    requires f.ConfirmDeposit? && Known(env, s, f) && Commits(s, MutationOf(env, f), read, sk)
    requires f.txid !in s.countedOn
    requires forall txid :: txid in s.countedOn ==> txid in s.db.deposits
    ensures DepositedOn(AfterPost(env, c, s, f, read, sk, answered), user, day)
            == DepositedOn(s, user, day) + (if user == f.deposit.user && day == env.dayOf(f.now) then f.deposit.amount else 0)
  {
    hide Commits, MutationOf, EffectiveDailyLimits, LedgerInv;
    var s' := AfterPost(env, c, s, f, read, sk, answered);
    ConfirmMovesRow(env, s, f, read, sk);
    assert s'.countedOn.Keys == s.countedOn.Keys + {f.txid};
    SumChange(s.countedOn.Keys, s'.countedOn.Keys, txid => DayTerm(s, user, day, txid), txid => DayTerm(s', user, day, txid), f.txid);
  }

  lemma CommitKeepsLimits(s: State, m: Mutation, read: Snapshot, sk: SortKey)
    requires Commits(s, m, read, sk)
    ensures LimitsKept(s, AfterCommit(s, m, read, sk))
  {
  }

  lemma ConfirmedSumExact(env: Env, c: CallId, s: State, f: Flow, read: Snapshot, sk: SortKey, answered: bool)
    requires CountersInv(env, s) && f.ConfirmDeposit? && CanPost(env, c, s, f, read, sk)
    ensures DepositedOn(AfterPost(env, c, s, f, read, sk, answered), f.deposit.user, env.dayOf(f.now))
            == MutationOf(env, f).counters[f.deposit.user].next.depositSum
  {
    var m := MutationOf(env, f);
    var user := f.deposit.user;
    FreshDeposit(env, s, f, read, sk);
    CounterCommits(env, s, f, read, sk, user);
    CurrentIsExact(env, s, f.prev, f.now, user, m.counters[user].next);
    ConfirmCounts(env, c, s, f, read, sk, answered, user, env.dayOf(f.now));
  }

  lemma ConfirmedWithinLimits(env: Env, c: CallId, s: State, f: Flow, read: Snapshot, sk: SortKey, answered: bool)
    requires CountersInv(env, s) && MarkersInv(s) && DepositsInv(s)
    requires f.ConfirmDeposit? && CanPost(env, c, s, f, read, sk)
    ensures OwnsWallet(s, f.deposit.user, Real, f.deposit.wallet)
    ensures WithinLimits(MutationOf(env, f).counters[f.deposit.user].next, LimitsOf(s.db, f.deposit.wallet))
  {
    assert DepositOk(s, f.txid);
    CounterCommits(env, s, f, read, sk, f.deposit.user);
    BumpWithinLimits(env, s, f, f.deposit.user, f.deposit.wallet);
  }

  lemma ConfirmedCounter(env: Env, c: CallId, s: State, f: Flow, read: Snapshot, sk: SortKey, answered: bool)
    requires Calendar(env) && f.ConfirmDeposit? && CanPost(env, c, s, f, read, sk)
    ensures var s', next := AfterPost(env, c, s, f, read, sk, answered), MutationOf(env, f).counters[f.deposit.user].next;
            f.deposit.user in s'.db.counters && s'.db.counters[f.deposit.user] == next
                && next.day == env.dayOf(f.now) <= env.dayOf(s'.clock)
  {
    CounterCommits(env, s, f, read, sk, f.deposit.user);
  }

  lemma ConfirmedLimits(env: Env, c: CallId, s: State, f: Flow, read: Snapshot, sk: SortKey, answered: bool)
    requires CountersInv(env, s) && MarkersInv(s) && DepositsInv(s) && f.ConfirmDeposit? && CanPost(env, c, s, f, read, sk)
    ensures var s', w := AfterPost(env, c, s, f, read, sk, answered), f.deposit.wallet;
            OwnsWallet(s', f.deposit.user, Real, w)
                && WithinLimits(MutationOf(env, f).counters[f.deposit.user].next, LimitsOf(s'.db, w))
  {
    ConfirmedWithinLimits(env, c, s, f, read, sk, answered);
    CommitKeepsLimits(s, MutationOf(env, f), read, sk);
    LimitsStay(s, AfterPost(env, c, s, f, read, sk, answered), f.deposit.user, f.deposit.wallet);
  }

  lemma ConfirmedUserOk(env: Env, c: CallId, s: State, f: Flow, read: Snapshot, sk: SortKey, answered: bool)
    requires CountersInv(env, s) && MarkersInv(s) && DepositsInv(s) && Calendar(env)
    requires f.ConfirmDeposit? && CanPost(env, c, s, f, read, sk)
    ensures var s' := AfterPost(env, c, s, f, read, sk, answered);
            f.deposit.user in s'.db.counters && CounterOk(env, s', f.deposit.user)
  {
    ConfirmedCounter(env, c, s, f, read, sk, answered);
    ConfirmedSumExact(env, c, s, f, read, sk, answered);
    ConfirmedLimits(env, c, s, f, read, sk, answered);
  }

  lemma LimitsStay(s: State, s': State, user: UserId, w: WalletId)
    requires LimitsKept(s, s') && OwnsWallet(s, user, Real, w)
    ensures OwnsWallet(s', user, Real, w) && LimitsOf(s'.db, w) == LimitsOf(s.db, w)
  {
  }

  lemma FreshDeposit(env: Env, s: State, f: Flow, read: Snapshot, sk: SortKey)
    requires CountersInv(env, s) && f.ConfirmDeposit? && Commits(s, MutationOf(env, f), read, sk)
    ensures f.txid !in s.countedOn
    ensures forall txid :: txid in s.countedOn ==> txid in s.db.deposits
  {
    assert f.txid in s.countedOn ==> CountedOk(s, f.txid);
    forall txid | txid in s.countedOn ensures txid in s.db.deposits {
      assert CountedOk(s, txid);
    }
  }

  lemma OtherUserOk(env: Env, c: CallId, s: State, f: Flow, read: Snapshot, sk: SortKey, answered: bool, user: UserId)
    requires CountersInv(env, s) && f.ConfirmDeposit? && CanPost(env, c, s, f, read, sk)
    requires user in s.db.counters && user != f.deposit.user
    ensures var s' := AfterPost(env, c, s, f, read, sk, answered);
            user in s'.db.counters && CounterOk(env, s', user)
  {
    assert CounterOk(env, s, user);
    FreshDeposit(env, s, f, read, sk);
    CounterCommits(env, s, f, read, sk, f.deposit.user);
    ConfirmCounts(env, c, s, f, read, sk, answered, user, s.db.counters[user].day);
    CommitKeepsLimits(s, MutationOf(env, f), read, sk);
  }

  lemma ConfirmKeepsCounted(env: Env, c: CallId, s: State, f: Flow, read: Snapshot, sk: SortKey, answered: bool)
    requires CountersInv(env, s) && f.ConfirmDeposit? && CanPost(env, c, s, f, read, sk)
    ensures var s' := AfterPost(env, c, s, f, read, sk, answered);
            && (forall txid :: txid in s'.countedOn ==> CountedOk(s', txid))
            && (forall txid :: DepositKey(txid) in s'.db.guards ==> txid in s'.countedOn)
  {
    hide CounterOk, Commits;
    var s' := AfterPost(env, c, s, f, read, sk, answered);
    var user := f.deposit.user;
    ConfirmMovesRow(env, s, f, read, sk);
    CounterCommits(env, s, f, read, sk, user);
    NextDayIsNoEarlier(env, s, f.prev, f.now, user, MutationOf(env, f).counters[user].next);
    forall txid | txid in s'.countedOn ensures CountedOk(s', txid) {
      if txid != f.txid {
        assert CountedOk(s, txid);
        CountedStays(s, s', txid);
      }
    }
  }

  /** A counted deposit stays counted where no user's counters move to an earlier day. */
  lemma CountedStays(s: State, s': State, txid: Txid)
    requires txid in s.countedOn && CountedOk(s, txid) && txid in s'.countedOn && s'.countedOn[txid] == s.countedOn[txid]
    requires DepositKey(txid) in s'.db.guards && txid in s'.db.deposits && s'.db.deposits[txid].user == s.db.deposits[txid].user
    requires forall u :: u in s.db.counters ==> u in s'.db.counters && s.db.counters[u].day <= s'.db.counters[u].day
    ensures CountedOk(s', txid)
  {
  }

  lemma ConfirmKeepsCounters(env: Env, c: CallId, s: State, f: Flow, read: Snapshot, sk: SortKey, answered: bool)
    requires CountersInv(env, s) && MarkersInv(s) && DepositsInv(s) && Calendar(env)
    requires f.ConfirmDeposit? && CanPost(env, c, s, f, read, sk)
    ensures CountersInv(env, AfterPost(env, c, s, f, read, sk, answered))
  {
    var s' := AfterPost(env, c, s, f, read, sk, answered);
    ConfirmKeepsCounted(env, c, s, f, read, sk, answered);
    ConfirmedUserOk(env, c, s, f, read, sk, answered);
    CounterCommits(env, s, f, read, sk, f.deposit.user);
    forall user | user in s'.db.counters && user != f.deposit.user ensures CounterOk(env, s', user) {
      OtherUserOk(env, c, s, f, read, sk, answered, user);
    }
  }

  // ---- withdrawals and slots ----

  /** A counter write that leaves the deposit sum of its day alone keeps the invariant. */
  lemma CounterWriteKeeps(env: Env, s: State, s': State, user: UserId, next: Counters)
    requires CountersInv(env, s) && Calendar(env)
    requires s'.db.counters == s.db.counters[user := next] && s'.countedOn == s.countedOn && s'.clock == s.clock
        && LimitsKept(s, s')
    requires forall txid :: DepositKey(txid) in s'.db.guards <==> DepositKey(txid) in s.db.guards
    requires s'.db.deposits == s.db.deposits
    requires user in s.db.counters ==> s.db.counters[user].day <= next.day
    requires next.day <= env.dayOf(s.clock) && next.depositSum == DepositedOn(s, user, next.day)
    requires Owner(user, Real) in s.db.markers && s.db.markers[Owner(user, Real)] in s.db.wallets
    requires WithinLimits(next, LimitsOf(s.db, s.db.markers[Owner(user, Real)]))
    ensures CountersInv(env, s')
  {
    forall txid | txid in s'.countedOn ensures CountedOk(s', txid) {
      assert CountedOk(s, txid);
    }
    forall u | u in s'.db.counters ensures CounterOk(env, s', u) {
      assert u != user ==> CounterOk(env, s, u);
      assert forall txid :: txid in s.countedOn ==> CountedOk(s, txid);
      DepositedFrame(s, s', u, s'.db.counters[u].day);
    }
  }

  lemma PayOutKeepsCounters(env: Env, c: CallId, s: State, f: Flow, read: Snapshot, sk: SortKey, answered: bool)
    requires CountersInv(env, s) && MarkersInv(s) && Calendar(env)
    requires f.PayOut? && CanPost(env, c, s, f, read, sk)
    ensures CountersInv(env, AfterPost(env, c, s, f, read, sk, answered))
  {
    var m := MutationOf(env, f);
    var user := f.withdrawal.user;
    CounterCommits(env, s, f, read, sk, user);
    NextDayIsNoEarlier(env, s, f.prev, f.now, user, m.counters[user].next);
    BumpWithinLimits(env, s, f, user, f.withdrawal.wallet);
    CurrentIsExact(env, s, f.prev, f.now, user, m.counters[user].next);
    CommitKeepsLimits(s, m, read, sk);
    assert env.dayOf(f.now) <= env.dayOf(s.clock);
    CounterWriteKeeps(env, s, AfterPost(env, c, s, f, read, sk, answered), user, m.counters[user].next);
  }

  lemma MarkKeepsCounters(env: Env, s: State, wid: WithdrawalId, slot: Option<Counters>)
    requires CountersInv(env, s) && Calendar(env) && CanMarkReversed(env, s, wid, slot)
    ensures CountersInv(env, AfterMarkReversed(s, wid, slot))
  {
    var s' := AfterMarkReversed(s, wid, slot);
    var row := s.db.withdrawals[wid];
    if slot.Some? {
      assert CounterOk(env, s, row.user);
      CounterWriteKeeps(env, s, s', row.user, ReturnSlot(slot.value, row.amount));
    } else {
      CountersFrame(env, s, s');
    }
  }

  lemma OtherPostKeepsCounters(env: Env, c: CallId, s: State, f: Flow, read: Snapshot, sk: SortKey, answered: bool)
    requires CountersInv(env, s) && Calendar(env) && !f.PayOut? && !f.ConfirmDeposit? && CanPost(env, c, s, f, read, sk)
    ensures CountersInv(env, AfterPost(env, c, s, f, read, sk, answered))
  {
    Footprint(env, f);
    CommitKeepsLimits(s, MutationOf(env, f), read, sk);
    CountersFrame(env, s, AfterPost(env, c, s, f, read, sk, answered));
  }

  lemma CountersUntouched(env: Env, c: CallId, a: Action, s: State)
    requires Enabled(env, c, a, s) && !a.Post? && !a.MarkReversed?
    ensures var s' := Effect(env, c, a, s);
            && s'.db.counters == s.db.counters && s'.countedOn == s.countedOn && s'.db.guards == s.db.guards
                && s.clock <= s'.clock
            && LimitsKept(s, s')
  {
  }

  lemma DepositRowsKept(env: Env, c: CallId, a: Action, s: State)
    requires Enabled(env, c, a, s) && !a.Post?
    ensures var s' := Effect(env, c, a, s);
            forall txid :: txid in s.db.deposits ==>
                txid in s'.db.deposits && SameDeposit(s'.db.deposits[txid], s.db.deposits[txid])
  {
  }

  /** Every action of every call keeps the counters exact and within their limits. */
  lemma CountersPreserved(env: Env, c: CallId, a: Action, s: State)
    requires Calendar(env) && MarkersInv(s) && DepositsInv(s) && CountersInv(env, s) && Enabled(env, c, a, s)
    ensures CountersInv(env, Effect(env, c, a, s))
  {
    var s' := Effect(env, c, a, s);
    if a.Post? {
      if a.flow.ConfirmDeposit? {
        ConfirmKeepsCounters(env, c, s, a.flow, a.read, a.sk, a.answered);
      } else if a.flow.PayOut? {
        PayOutKeepsCounters(env, c, s, a.flow, a.read, a.sk, a.answered);
      } else {
        OtherPostKeepsCounters(env, c, s, a.flow, a.read, a.sk, a.answered);
      }
    } else if a.MarkReversed? {
      MarkKeepsCounters(env, s, a.wid, a.slot);
    } else {
      CountersUntouched(env, c, a, s);
      DepositRowsKept(env, c, a, s);
      CountersFrame(env, s, s');
    }
  }
}
