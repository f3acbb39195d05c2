/** Daily withdrawal slots: counted once, given back at most once by a reversal, the clamps never needed. */
module Slots {
  import opened Rows
  import opened Limits
  import opened Store
  import opened System
  import opened Withdrawals
  import opened Deposits
  import opened DailyCounters
  import opened Sums

  datatype Measure = OfAmount | OfCount

  /** A withdrawal's share of its user's sum (or count) on one day, until its slot is given back. */
  ghost function SlotTerm(env: Env, s: State, user: UserId, day: Day, unit: Measure, wid: WithdrawalId): int {
    if wid in s.db.withdrawals && s.db.withdrawals[wid].user == user && env.dayOf(s.db.withdrawals[wid].createdAt) == day && wid !in s.slotsReturned
    then (if unit.OfCount? then 1 else s.db.withdrawals[wid].amount) else 0
  }

  ghost function Taken(env: Env, s: State, user: UserId, day: Day, unit: Measure): int {
    Sum(s.db.withdrawals.Keys, wid => SlotTerm(env, s, user, day, unit, wid))
  }

  function Counted(c: Counters, unit: Measure): int {
    if unit.OfCount? then c.withdrawCount else c.withdrawSum
  }

  ghost predicate SlotsOk(env: Env, s: State, user: UserId)
    requires user in s.db.counters
  {
    forall unit :: Counted(s.db.counters[user], unit) == Taken(env, s, user, s.db.counters[user].day, unit)
  }

  ghost predicate CountedDay(env: Env, s: State, wid: WithdrawalId)
    requires wid in s.db.withdrawals
  {
    var row := s.db.withdrawals[wid];
    row.user in s.db.counters && env.dayOf(row.createdAt) <= s.db.counters[row.user].day
  }

  ghost predicate SlotsInv(env: Env, s: State) {
    && (forall user :: user in s.db.counters ==> SlotsOk(env, s, user))
    && (forall wid :: wid in s.db.withdrawals ==> CountedDay(env, s, wid))
    && (forall wid :: wid in s.slotsReturned ==> wid in s.db.withdrawals && s.db.withdrawals[wid].status == Reversed)
  }

  /** When slots are exact: a withdrawal is counted on the day of its row, reversal credits are not
      reported as failed, and "unknown" is only believed once the rail stopped accepting. */
  ghost predicate SlotsExact(env: Env) {
    Calendar(env) && env.sameDay && env.creditsSucceed && GraceCovers(env)
  }

  lemma TakenFrame(env: Env, s: State, s': State, user: UserId, day: Day, unit: Measure)
    requires s'.db.withdrawals.Keys == s.db.withdrawals.Keys && s'.slotsReturned == s.slotsReturned
    requires forall wid :: wid in s.db.withdrawals ==> SameWithdrawal(s'.db.withdrawals[wid], s.db.withdrawals[wid])
    ensures Taken(env, s', user, day, unit) == Taken(env, s, user, day, unit)
  {
    SumSame(s.db.withdrawals.Keys, wid => SlotTerm(env, s, user, day, unit, wid), wid => SlotTerm(env, s', user, day, unit, wid));
  }

  lemma SlotsFrame(env: Env, s: State, s': State)
    requires SlotsInv(env, s) && s'.db.counters == s.db.counters && s'.slotsReturned == s.slotsReturned
    requires s'.db.withdrawals.Keys == s.db.withdrawals.Keys
    requires forall wid :: wid in s.db.withdrawals ==> SameWithdrawal(s'.db.withdrawals[wid], s.db.withdrawals[wid])
    requires forall wid :: wid in s.slotsReturned ==> wid in s.db.withdrawals && s'.db.withdrawals[wid].status == Reversed
    ensures SlotsInv(env, s')
  {
    forall wid | wid in s'.db.withdrawals ensures CountedDay(env, s', wid) {
      assert CountedDay(env, s, wid);
    }
    forall user | user in s'.db.counters ensures SlotsOk(env, s', user) {
      assert SlotsOk(env, s, user);
      TakenFrame(env, s, s', user, s.db.counters[user].day, OfAmount);
      TakenFrame(env, s, s', user, s.db.counters[user].day, OfCount);
    }
  }

  lemma NothingTaken(env: Env, s: State, user: UserId, day: Day, unit: Measure)
    requires forall wid :: wid in s.db.withdrawals ==> SlotTerm(env, s, user, day, unit, wid) == 0
    ensures Taken(env, s, user, day, unit) == 0
  {
    SumOfZeros(s.db.withdrawals.Keys, wid => SlotTerm(env, s, user, day, unit, wid));
  }

  /** On the day being written, the slots taken so far are what the current counters say. */
  lemma CurrentSlotsExact(env: Env, s: State, prev: Option<Counters>, now: Time, user: UserId, next: Counters, unit: Measure)
    requires SlotsInv(env, s)
    requires CounterCond(s.db.counters, user, CounterOp(prev, next)) && CounterRead(env, s, prev, now)
    ensures Taken(env, s, user, env.dayOf(now), unit) == Counted(CurrentFor(prev, env.dayOf(now)), unit)
  {
    var day := env.dayOf(now);
    if prev.Some? && prev.value.day == day {
      assert SlotsOk(env, s, user);
    } else {
      forall wid | wid in s.db.withdrawals ensures SlotTerm(env, s, user, day, unit, wid) == 0 {
        assert CountedDay(env, s, wid);
      }
      NothingTaken(env, s, user, day, unit);
    }
  }

  // ---- a confirmed deposit rewrites the same counters ----

  lemma ConfirmKeepsSlots(env: Env, c: CallId, s: State, f: Flow, read: Snapshot, sk: SortKey, answered: bool)
    requires SlotsInv(env, s) && f.ConfirmDeposit? && CanPost(env, c, s, f, read, sk)
    ensures SlotsInv(env, AfterPost(env, c, s, f, read, sk, answered))
  {
    hide Known, Commits, MutationOf;
    var s' := AfterPost(env, c, s, f, read, sk, answered);
    var user := f.deposit.user;
    var next := ConfirmedCounters(env, s, f, read, sk);
    forall wid | wid in s'.db.withdrawals ensures CountedDay(env, s', wid) {
      assert CountedDay(env, s, wid);
    }
    forall u | u in s'.db.counters ensures SlotsOk(env, s', u) {
      if u != user {
        assert SlotsOk(env, s, u);
      }
      SlotsOfFrame(env, s, s', u);
    }
  }

  /** A confirmation writes counters of a day no earlier, on which no slot is taken or given back. */
  lemma ConfirmedCounters(env: Env, s: State, f: Flow, read: Snapshot, sk: SortKey) returns (next: Counters)
    requires SlotsInv(env, s) && f.ConfirmDeposit? && Known(env, s, f) && Commits(s, MutationOf(env, f), read, sk)
    ensures var s' := AfterCommit(s, MutationOf(env, f), read, sk);
            && s'.db.counters == s.db.counters[f.deposit.user := next] && s'.db.withdrawals == s.db.withdrawals
    ensures f.deposit.user in s.db.counters ==> s.db.counters[f.deposit.user].day <= next.day
    ensures forall unit :: Counted(next, unit) == Taken(env, s, f.deposit.user, next.day, unit)
  {
    hide Commits;
    var user := f.deposit.user;
    next := MutationOf(env, f).counters[user].next;
    CounterCommits(env, s, f, read, sk, user);
    NextDayIsNoEarlier(env, s, f.prev, f.now, user, next);
    forall unit ensures Counted(next, unit) == Taken(env, s, user, next.day, unit) {
      CurrentSlotsExact(env, s, f.prev, f.now, user, next, unit);
    }
  }

  lemma SlotsOfFrame(env: Env, s: State, s': State, user: UserId)
    requires s'.db.withdrawals.Keys == s.db.withdrawals.Keys && s'.slotsReturned == s.slotsReturned
    requires forall wid :: wid in s.db.withdrawals ==> SameWithdrawal(s'.db.withdrawals[wid], s.db.withdrawals[wid])
    requires user in s'.db.counters
    requires forall unit :: Counted(s'.db.counters[user], unit) == Taken(env, s, user, s'.db.counters[user].day, unit)
    ensures SlotsOk(env, s', user)
  {
    forall unit ensures Counted(s'.db.counters[user], unit) == Taken(env, s', user, s'.db.counters[user].day, unit) {
      TakenFrame(env, s, s', user, s'.db.counters[user].day, unit);
    }
  }

  // ---- a withdrawal takes a slot ----

  lemma NewRowTakes(env: Env, s: State, s': State, wid: WithdrawalId, row: WithdrawalRow, user: UserId, day: Day, unit: Measure)
    requires wid !in s.db.withdrawals && wid !in s.slotsReturned
    requires s'.db.withdrawals == s.db.withdrawals[wid := row] && s'.slotsReturned == s.slotsReturned
    ensures Taken(env, s', user, day, unit) == Taken(env, s, user, day, unit)
            + (if user == row.user && day == env.dayOf(row.createdAt) then (if unit.OfCount? then 1 else row.amount) else 0)
  {
    assert s'.db.withdrawals.Keys == s.db.withdrawals.Keys + {wid};
    SumChange(s.db.withdrawals.Keys, s'.db.withdrawals.Keys,
              id => SlotTerm(env, s, user, day, unit, id), id => SlotTerm(env, s', user, day, unit, id), wid);
  }

  /** What a withdrawal's commit changes: its row, its user's counters, nothing given back. */
  lemma PayOutWrites(env: Env, c: CallId, s: State, f: Flow, read: Snapshot, sk: SortKey, answered: bool)
    requires f.PayOut? && CanPost(env, c, s, f, read, sk)
    ensures var s' := AfterPost(env, c, s, f, read, sk, answered);
            var op := MutationOf(env, f).counters[f.withdrawal.user];
            && f.wid !in s.db.withdrawals && s'.db.withdrawals == s.db.withdrawals[f.wid := f.withdrawal]
            && CounterCond(s.db.counters, f.withdrawal.user, op) && s'.db.counters == s.db.counters[f.withdrawal.user := op.next]
            && s'.slotsReturned == s.slotsReturned
  {
    PayOutAddsRow(env, s, f, read, sk);
    CounterCommits(env, s, f, read, sk, f.withdrawal.user);
  }

  lemma PayOutKeepsSums(env: Env, c: CallId, s: State, f: Flow, read: Snapshot, sk: SortKey, answered: bool, user: UserId)
    requires SlotsInv(env, s) && env.sameDay && f.PayOut? && CanPost(env, c, s, f, read, sk)
    requires user in AfterPost(env, c, s, f, read, sk, answered).db.counters
    ensures SlotsOk(env, AfterPost(env, c, s, f, read, sk, answered), user)
  {
    hide Commits, EffectiveDailyLimits;
    var s' := AfterPost(env, c, s, f, read, sk, answered);
    var op := MutationOf(env, f).counters[f.withdrawal.user];
    PayOutWrites(env, c, s, f, read, sk, answered);
    forall unit ensures Counted(s'.db.counters[user], unit) == Taken(env, s', user, s'.db.counters[user].day, unit) {
      NewRowTakes(env, s, s', f.wid, f.withdrawal, user, s'.db.counters[user].day, unit);
      if user == f.withdrawal.user {
        CurrentSlotsExact(env, s, f.prev, f.now, user, op.next, unit);
      } else {
        assert SlotsOk(env, s, user);
      }
    }
  }

  lemma PayOutKeepsSlots(env: Env, c: CallId, s: State, f: Flow, read: Snapshot, sk: SortKey, answered: bool)
    requires SlotsInv(env, s) && env.sameDay && f.PayOut? && CanPost(env, c, s, f, read, sk)
    ensures SlotsInv(env, AfterPost(env, c, s, f, read, sk, answered))
  {
    var s' := AfterPost(env, c, s, f, read, sk, answered);
    PayOutWrites(env, c, s, f, read, sk, answered);
    NextDayIsNoEarlier(env, s, f.prev, f.now, f.withdrawal.user, MutationOf(env, f).counters[f.withdrawal.user].next);
    CountedAfterNewRow(env, s, s', f.wid, f.withdrawal, MutationOf(env, f).counters[f.withdrawal.user].next);
    forall u | u in s'.db.counters ensures SlotsOk(env, s', u) {
      PayOutKeepsSums(env, c, s, f, read, sk, answered, u);
    }
  }

  lemma CountedAfterNewRow(env: Env, s: State, s': State, wid: WithdrawalId, row: WithdrawalRow, next: Counters)
    requires SlotsInv(env, s) && wid !in s.db.withdrawals && s'.db.withdrawals == s.db.withdrawals[wid := row]
    requires s'.db.counters == s.db.counters[row.user := next] && env.dayOf(row.createdAt) == next.day
    requires row.user in s.db.counters ==> s.db.counters[row.user].day <= next.day
    ensures forall id :: id in s'.db.withdrawals ==> CountedDay(env, s', id)
    ensures forall id :: id in s.slotsReturned ==> id in s'.db.withdrawals && s'.db.withdrawals[id].status == Reversed
  {
    forall id | id in s'.db.withdrawals ensures CountedDay(env, s', id) {
      if id != wid {
        assert CountedDay(env, s, id);
      }
    }
  }

  // ---- a reversal gives it back ----

  lemma MarkGivesBack(env: Env, s: State, wid: WithdrawalId, slot: Option<Counters>, user: UserId, day: Day, unit: Measure)
    requires CanMarkReversed(env, s, wid, slot) && slot.Some? && wid !in s.slotsReturned
    ensures Taken(env, AfterMarkReversed(s, wid, slot), user, day, unit)
        == Taken(env, s, user, day, unit) - SlotTerm(env, s, user, day, unit, wid)
    ensures 0 <= SlotTerm(env, s, user, day, unit, wid) <= Taken(env, s, user, day, unit)
  {
    var s' := AfterMarkReversed(s, wid, slot);
    assert s'.db.withdrawals.Keys == s.db.withdrawals.Keys + {wid};
    SumChange(s.db.withdrawals.Keys, s'.db.withdrawals.Keys,
              id => SlotTerm(env, s, user, day, unit, id), id => SlotTerm(env, s', user, day, unit, id), wid);
    SumAtLeast(s.db.withdrawals.Keys, id => SlotTerm(env, s, user, day, unit, id));
    assert (id => SlotTerm(env, s, user, day, unit, id))(wid) == SlotTerm(env, s, user, day, unit, wid);
  }

  /** Given back exactly: what is subtracted is still counted, so neither clamp at zero fires. */
  lemma NoClamp(env: Env, s: State, wid: WithdrawalId, slot: Option<Counters>)
    requires SlotsInv(env, s) && CanMarkReversed(env, s, wid, slot) && slot.Some?
    ensures slot.value.withdrawCount >= 1 && slot.value.withdrawSum >= s.db.withdrawals[wid].amount
  {
    var row := s.db.withdrawals[wid];
    assert SlotsOk(env, s, row.user);
    MarkGivesBack(env, s, wid, slot, row.user, slot.value.day, OfCount);
    MarkGivesBack(env, s, wid, slot, row.user, slot.value.day, OfAmount);
    assert Counted(slot.value, OfCount) == Taken(env, s, row.user, slot.value.day, OfCount);
    assert Counted(slot.value, OfAmount) == Taken(env, s, row.user, slot.value.day, OfAmount);
  }

  lemma MarkKeepsSums(env: Env, s: State, wid: WithdrawalId, slot: Option<Counters>, user: UserId)
    requires SlotsInv(env, s) && CanMarkReversed(env, s, wid, slot) && slot.Some? && user in s.db.counters
    ensures user in AfterMarkReversed(s, wid, slot).db.counters && SlotsOk(env, AfterMarkReversed(s, wid, slot), user)
  {
    var s' := AfterMarkReversed(s, wid, slot);
    NoClamp(env, s, wid, slot);
    assert SlotsOk(env, s, user);
    forall unit ensures Counted(s'.db.counters[user], unit) == Taken(env, s', user, s'.db.counters[user].day, unit) {
      MarkGivesBack(env, s, wid, slot, user, s.db.counters[user].day, unit);
      assert Counted(s.db.counters[user], unit) == Taken(env, s, user, s.db.counters[user].day, unit);
    }
  }

  lemma MarkKeepsSlots(env: Env, s: State, wid: WithdrawalId, slot: Option<Counters>)
    requires SlotsInv(env, s) && CanMarkReversed(env, s, wid, slot)
    ensures SlotsInv(env, AfterMarkReversed(s, wid, slot))
  {
    var s' := AfterMarkReversed(s, wid, slot);
    if slot.None? {
      SlotsFrame(env, s, s');
    } else {
      forall id | id in s'.db.withdrawals ensures CountedDay(env, s', id) {
        assert CountedDay(env, s, id);
      }
      forall u | u in s'.db.counters ensures SlotsOk(env, s', u) {
        MarkKeepsSums(env, s, wid, slot, u);
      }
    }
  }

  lemma SetKeepsSlots(env: Env, s: State, wid: WithdrawalId, to: WithdrawalStatus, why: Evidence)
    requires SlotsInv(env, s) && RowsInv(env, s) && CreditInv(env, s) && SlotsExact(env)
    requires CanSetWithdrawal(env, s, wid, to, why)
    ensures SlotsInv(env, AfterSetWithdrawal(s, wid, to))
  {
    assert RowOk(s, wid);
    SlotsFrame(env, s, AfterSetWithdrawal(s, wid, to));
  }

  lemma OtherPostKeepsSlots(env: Env, c: CallId, s: State, f: Flow, read: Snapshot, sk: SortKey, answered: bool)
    requires SlotsInv(env, s) && !f.PayOut? && !f.ConfirmDeposit? && CanPost(env, c, s, f, read, sk)
    ensures SlotsInv(env, AfterPost(env, c, s, f, read, sk, answered))
  {
    Footprint(env, f);
    SlotsFrame(env, s, AfterPost(env, c, s, f, read, sk, answered));
  }

  lemma SlotsUntouched(env: Env, c: CallId, a: Action, s: State)
    requires Enabled(env, c, a, s) && !a.Post? && !a.MarkReversed? && !a.SetWithdrawal?
    ensures var s' := Effect(env, c, a, s);
            s'.db.counters == s.db.counters && s'.db.withdrawals == s.db.withdrawals && s'.slotsReturned == s.slotsReturned
  {
  }

  /** Every action of every call keeps the slots exact. */
  lemma SlotsPreserved(env: Env, c: CallId, a: Action, s: State)
    requires SlotsExact(env) && RowsInv(env, s) && CreditInv(env, s) && SlotsInv(env, s) && Enabled(env, c, a, s)
    ensures SlotsInv(env, Effect(env, c, a, s))
  {
    var s' := Effect(env, c, a, s);
    if a.Post? {
      if a.flow.ConfirmDeposit? {
        ConfirmKeepsSlots(env, c, s, a.flow, a.read, a.sk, a.answered);
      } else if a.flow.PayOut? {
        PayOutKeepsSlots(env, c, s, a.flow, a.read, a.sk, a.answered);
      } else {
        OtherPostKeepsSlots(env, c, s, a.flow, a.read, a.sk, a.answered);
      }
    } else if a.MarkReversed? {
      MarkKeepsSlots(env, s, a.wid, a.slot);
    } else if a.SetWithdrawal? {
      SetKeepsSlots(env, s, a.wid, a.status, a.why);
    } else {
      SlotsUntouched(env, c, a, s);
      SlotsFrame(env, s, s');
    }
  }
}
