/** Holds conserve value: each leaves `held` once, in the commit of its credit, and a user's cash-outs
    never exceed what the user's settled holds had reserved. */
module Holds {
  import opened Rows
  import opened Store
  import opened System
  import opened Ledger
  import opened Withdrawals
  import opened Markers
  import opened Sums
  import opened Books

  // ---- release bookkeeping ----

  lemma HoldsFrame(s: State, s': State)
    requires HoldsInv(s)
    requires s'.db.holds == s.db.holds && s'.db.guards == s.db.guards
    requires forall w :: w in s'.db.wallets ==> w in s.db.wallets || forall id :: id in s.db.holds ==> s.db.holds[id].wallet != w
    requires forall user, w :: OwnsWallet(s, user, Real, w) ==> OwnsWallet(s', user, Real, w)
    requires s.db.markers.Keys <= s'.db.markers.Keys
    ensures HoldsInv(s')
  {
    forall id | id in s'.db.holds ensures HoldOk(s', id) {
      assert HoldOk(s, id);
    }
  }

  lemma OldHoldOk(s: State, m: Mutation, read: Snapshot, sk: SortKey, id: HoldId)
    requires Commits(s, m, read, sk) && id in s.db.holds && HoldOk(s, id) && m.key != ReleaseKey(id)
    requires id in AfterCommit(s, m, read, sk).db.holds && SameHold(AfterCommit(s, m, read, sk).db.holds[id], s.db.holds[id])
    requires AfterCommit(s, m, read, sk).db.holds[id].status == Released <==> s.db.holds[id].status == Released
    ensures HoldOk(AfterCommit(s, m, read, sk), id)
  {
  }

  lemma PlaceKeepsHolds(env: Env, s: State, f: Flow, read: Snapshot, sk: SortKey)
    requires HoldsInv(s) && f.PlaceHold? && Known(env, s, f) && Commits(s, MutationOf(env, f), read, sk)
    ensures HoldsInv(AfterCommit(s, MutationOf(env, f), read, sk))
  {
    var m := MutationOf(env, f);
    var s' := AfterCommit(s, m, read, sk);
    HoldsAfterPlace(env, s, f, read, sk, f.hold.wallet);
    assert HoldOk(s', f.id);
    forall id | id in s'.db.holds && id != f.id ensures HoldOk(s', id) {
      OldHoldOk(s, m, read, sk, id);
    }
  }

  lemma ReleaseKeepsHolds(env: Env, s: State, f: Flow, read: Snapshot, sk: SortKey)
    requires HoldsInv(s) && f.ReleaseHold? && Known(env, s, f) && Commits(s, MutationOf(env, f), read, sk)
    ensures HoldsInv(AfterCommit(s, MutationOf(env, f), read, sk))
  {
    var m := MutationOf(env, f);
    var s' := AfterCommit(s, m, read, sk);
    ReleaseMovesHold(env, s, f, read, sk);
    assert HoldOk(s, f.id);
    assert HoldOk(s', f.id);
    forall id | id in s'.db.holds && id != f.id ensures HoldOk(s', id) {
      OldHoldOk(s, m, read, sk, id);
    }
  }

  lemma CashoutKeepsHolds(env: Env, s: State, f: Flow, read: Snapshot, sk: SortKey)
    requires HoldsInv(s) && f.Cashout? && Commits(s, MutationOf(env, f), read, sk)
    ensures HoldsInv(AfterCommit(s, MutationOf(env, f), read, sk))
  {
    var m := MutationOf(env, f);
    var s' := AfterCommit(s, m, read, sk);
    CashoutSettles(env, s, f, read, sk);
    forall id | id in s'.db.holds ensures HoldOk(s', id) {
      if id in f.ids {
        CashoutFindsHeld(env, s, f, read, sk, id);
      }
      OldHoldOk(s, m, read, sk, id);
    }
  }

  lemma OtherKeepsHolds(s: State, m: Mutation, read: Snapshot, sk: SortKey)
    requires HoldsInv(s) && m.holds == map[] && !m.key.ReleaseKey? && Commits(s, m, read, sk)
    ensures HoldsInv(AfterCommit(s, m, read, sk))
  {
    var s' := AfterCommit(s, m, read, sk);
    forall id | id in s'.db.holds ensures HoldOk(s', id) {
      OldHoldOk(s, m, read, sk, id);
    }
  }

  lemma CommitKeepsHolds(env: Env, s: State, f: Flow, read: Snapshot, sk: SortKey)
    requires HoldsInv(s) && Known(env, s, f) && Commits(s, MutationOf(env, f), read, sk)
    ensures HoldsInv(AfterCommit(s, MutationOf(env, f), read, sk))
  {
    Footprint(env, f);
    if f.PlaceHold? {
      PlaceKeepsHolds(env, s, f, read, sk);
    } else if f.ReleaseHold? {
      ReleaseKeepsHolds(env, s, f, read, sk);
    } else if f.Cashout? {
      CashoutKeepsHolds(env, s, f, read, sk);
    } else {
      OtherKeepsHolds(s, MutationOf(env, f), read, sk);
    }
  }

  lemma HoldsPreserved(env: Env, c: CallId, a: Action, s: State)
    requires HoldsInv(s) && Enabled(env, c, a, s)
    ensures HoldsInv(Effect(env, c, a, s))
  {
    var s' := Effect(env, c, a, s);
    if a.Post? {
      CommitKeepsHolds(env, s, a.flow, a.read, a.sk);
      HoldsFrame(AfterCommit(s, MutationOf(env, a.flow), a.read, a.sk), s');
    } else if a.OpenWallet? {
      HoldsFrame(s, s');
    } else {
      LedgerUntouched(env, c, a, s);
      HoldsFrame(s, s');
    }
  }

  // ---- conservation ----

  ghost function SettledTerm(s: State, user: UserId, id: HoldId): int {
    if id in s.db.holds && s.db.holds[id].user == user && s.db.holds[id].status == Settled then s.db.holds[id].amount else 0
  }

  /** What a cash-out key of this user credited, on whichever wallet. */
  ghost function CreditedTerm(s: State, user: UserId, k: IdemKey): int {
    if k.CashoutKey? && k.user == user && k in s.db.guards then BookedAmount(s, s.db.guards[k].wallet, k) else 0
  }

  ghost function SettledOf(s: State, user: UserId): int { Sum(s.db.holds.Keys, id => SettledTerm(s, user, id)) }
  ghost function CreditedTo(s: State, user: UserId): int { Sum(s.db.guards.Keys, k => CreditedTerm(s, user, k)) }

  /** Cash-outs never mint: a user is credited at most what the user's settled holds reserved. */
  ghost predicate ConservedInv(s: State) {
    forall user :: CreditedTo(s, user) <= SettledOf(s, user)
  }

  lemma CreditedAfterCommit(s: State, m: Mutation, read: Snapshot, sk: SortKey, user: UserId)
    requires LedgerInv(s) && Commits(s, m, read, sk)
    ensures CreditedTo(AfterCommit(s, m, read, sk), user)
        == CreditedTo(s, user) + (if m.key.CashoutKey? && m.key.user == user then Signed(m) else 0)
  {
    var s' := AfterCommit(s, m, read, sk);
    forall k | k in s.db.guards ensures CreditedTerm(s, user, k) == CreditedTerm(s', user, k) {
      BookedStays(s, m, read, sk, s.db.guards[k].wallet, k);
    }
    NewlyBooked(s, m, read, sk, m.wallet);
    assert s'.db.guards.Keys == s.db.guards.Keys + {m.key};
    SumChange(s.db.guards.Keys, s'.db.guards.Keys, k => CreditedTerm(s, user, k), k => CreditedTerm(s', user, k), m.key);
  }

  lemma {:induction false} ReservedIsSum(holds: map<HoldId, HoldRow>, ids: seq<HoldId>, amount: HoldId -> int)
    requires forall id :: id in ids ==> id in holds && amount(id) == holds[id].amount
    ensures Reserved(holds, ids) == SumSeq(ids, amount)
    decreases |ids|
  {
    if ids != [] {
      ReservedIsSum(holds, ids[..|ids| - 1], amount);
    }
  }

  lemma SettledAfterCashout(env: Env, s: State, f: Flow, read: Snapshot, sk: SortKey, user: UserId)
    requires f.Cashout? && Known(env, s, f) && Commits(s, MutationOf(env, f), read, sk)
    ensures SettledOf(AfterCommit(s, MutationOf(env, f), read, sk), user)
            == SettledOf(s, user) + (if user == f.user then Reserved(s.db.holds, f.ids) else 0)
  {
    var s' := AfterCommit(s, MutationOf(env, f), read, sk);
    CashoutSettles(env, s, f, read, sk);
    assert s'.db.holds.Keys == s.db.holds.Keys;
    forall id | id in f.ids ensures id in s.db.holds && s.db.holds[id].status == Held && s.db.holds[id].user == f.user {
      CashoutFindsHeld(env, s, f, read, sk, id);
    }
    if user == f.user {
      SettlesReserved(s, s', user, f.ids);
    } else {
      SumSame(s.db.holds.Keys, id => SettledTerm(s, user, id), id => SettledTerm(s', user, id));
    }
  }

  lemma SettlesReserved(s: State, s': State, user: UserId, ids: seq<HoldId>)
    requires Distinct(ids) && forall id :: id in ids ==>
        id in s.db.holds && s.db.holds[id].status == Held && s.db.holds[id].user == user
    requires s'.db.holds == map id | id in s.db.holds :: if id in ids then s.db.holds[id].(status := Settled) else s.db.holds[id]
    ensures SettledOf(s', user) == SettledOf(s, user) + Reserved(s.db.holds, ids)
  {
    assert s'.db.holds.Keys == s.db.holds.Keys;
    var amount := id => if id in s.db.holds then s.db.holds[id].amount as int else 0;
    ReservedIsSum(s.db.holds, ids, amount);
    SumChangeMany(s.db.holds.Keys, id => SettledTerm(s, user, id), id => SettledTerm(s', user, id), ids, amount);
  }

  lemma SettledFrame(s: State, s': State, user: UserId, id: HoldId, row: HoldRow)
    requires s'.db.holds == s.db.holds[id := row] && row.status != Settled
        && (id in s.db.holds ==> s.db.holds[id].status != Settled)
    ensures SettledOf(s', user) == SettledOf(s, user)
  {
    assert s'.db.holds.Keys == s.db.holds.Keys + {id};
    SumChange(s.db.holds.Keys, s'.db.holds.Keys, h => SettledTerm(s, user, h), h => SettledTerm(s', user, h), id);
  }

  lemma SettledAfterOther(env: Env, s: State, f: Flow, read: Snapshot, sk: SortKey, user: UserId)
    requires !f.Cashout? && Known(env, s, f) && Commits(s, MutationOf(env, f), read, sk)
    ensures SettledOf(AfterCommit(s, MutationOf(env, f), read, sk), user) == SettledOf(s, user)
  {
    var s' := AfterCommit(s, MutationOf(env, f), read, sk);
    Footprint(env, f);
    if f.PlaceHold? {
      HoldsAfterPlace(env, s, f, read, sk, f.hold.wallet);
      SettledFrame(s, s', user, f.id, f.hold);
    } else if f.ReleaseHold? {
      ReleaseMovesHold(env, s, f, read, sk);
      SettledFrame(s, s', user, f.id, s.db.holds[f.id].(status := Released));
    } else {
      SumSame(s.db.holds.Keys, id => SettledTerm(s, user, id), id => SettledTerm(s', user, id));
    }
  }

  lemma SumsFrame(s: State, s': State, user: UserId)
    requires s'.db.holds == s.db.holds && s'.db.guards == s.db.guards && s'.db.ledger == s.db.ledger
    ensures CreditedTo(s', user) == CreditedTo(s, user) && SettledOf(s', user) == SettledOf(s, user)
  {
    SumSame(s.db.holds.Keys, id => SettledTerm(s, user, id), id => SettledTerm(s', user, id));
    SumSame(s.db.guards.Keys, k => CreditedTerm(s, user, k), k => CreditedTerm(s', user, k));
  }

  lemma ConservedFrame(s: State, s': State)
    requires ConservedInv(s) && s'.db.holds == s.db.holds && s'.db.guards == s.db.guards && s'.db.ledger == s.db.ledger
    ensures ConservedInv(s')
  {
    forall user ensures CreditedTo(s', user) <= SettledOf(s', user) {
      SumsFrame(s, s', user);
    }
  }

  lemma CommitConserves(env: Env, s: State, f: Flow, read: Snapshot, sk: SortKey, user: UserId)
    requires LedgerInv(s) && Known(env, s, f) && Commits(s, MutationOf(env, f), read, sk)
    requires CreditedTo(s, user) <= SettledOf(s, user)
    ensures var s' := AfterCommit(s, MutationOf(env, f), read, sk); CreditedTo(s', user) <= SettledOf(s', user)
  {
    var m := MutationOf(env, f);
    Footprint(env, f);
    CreditedAfterCommit(s, m, read, sk, user);
    if f.Cashout? {
      SettledAfterCashout(env, s, f, read, sk, user);
      assert m.key.user == f.user && Signed(m) == f.amount <= Reserved(s.db.holds, f.ids);
    } else {
      SettledAfterOther(env, s, f, read, sk, user);
    }
  }

  lemma ConservedPreserved(env: Env, c: CallId, a: Action, s: State)
    requires LedgerInv(s) && ConservedInv(s) && Enabled(env, c, a, s)
    ensures ConservedInv(Effect(env, c, a, s))
  {
    var s' := Effect(env, c, a, s);
    if a.Post? {
      var s1 := AfterCommit(s, MutationOf(env, a.flow), a.read, a.sk);
      forall user ensures CreditedTo(s1, user) <= SettledOf(s1, user) {
        CommitConserves(env, s, a.flow, a.read, a.sk, user);
      }
      ConservedFrame(s1, s');
    } else if a.OpenWallet? {
      ConservedFrame(s, s');
    } else {
      LedgerUntouched(env, c, a, s);
      ConservedFrame(s, s');
    }
  }

  /** A hold changes status only from `held`, only inside the commit that credits it, and for good. */
  lemma LeavesHeldWithItsCredit(env: Env, c: CallId, a: Action, s: State, id: HoldId)
    requires Enabled(env, c, a, s) && id in s.db.holds
    ensures var s' := Effect(env, c, a, s);
            && id in s'.db.holds && SameHold(s'.db.holds[id], s.db.holds[id])
            && (s'.db.holds[id].status != s.db.holds[id].status ==>
                  && s.db.holds[id].status == Held && a.Post?
                  && ((a.flow.ReleaseHold? && a.flow.id == id && s'.db.holds[id].status == Released
                       && Books.BookedAmount(s', a.flow.target, ReleaseKey(id)) == s.db.holds[id].amount
                       && OwnsWallet(s', s.db.holds[id].user, Real, a.flow.target))
                      || (a.flow.Cashout? && id in a.flow.ids && s'.db.holds[id].status == Settled
                          && a.flow.user == s.db.holds[id].user && CashoutKey(a.flow.user, a.flow.idem) in s'.db.guards)))
  {
    if a.Post? {
      HoldAfterPost(env, c, s, a.flow, a.read, a.sk, a.answered, id);
    } else if !a.OpenWallet? {
      LedgerUntouched(env, c, a, s);
    }
  }

  lemma HoldAfterPost(env: Env, c: CallId, s: State, f: Flow, read: Snapshot, sk: SortKey, answered: bool, id: HoldId)
    requires CanPost(env, c, s, f, read, sk) && id in s.db.holds
    ensures var s' := AfterPost(env, c, s, f, read, sk, answered);
            && id in s'.db.holds && SameHold(s'.db.holds[id], s.db.holds[id])
            && (s'.db.holds[id].status != s.db.holds[id].status ==>
                  && s.db.holds[id].status == Held
                  && ((f.ReleaseHold? && f.id == id && s'.db.holds[id].status == Released
                       && Books.BookedAmount(s', f.target, ReleaseKey(id)) == s.db.holds[id].amount
                       && OwnsWallet(s', s.db.holds[id].user, Real, f.target))
                      || (f.Cashout? && id in f.ids && s'.db.holds[id].status == Settled
                          && f.user == s.db.holds[id].user && CashoutKey(f.user, f.idem) in s'.db.guards)))
  {
    hide Commits, CounterRead;
    Footprint(env, f);
    if f.PlaceHold? {
      HoldsAfterPlace(env, s, f, read, sk, f.hold.wallet);
    } else if f.ReleaseHold? {
      ReleaseMovesHold(env, s, f, read, sk);
      NewlyBooked(s, MutationOf(env, f), read, sk, f.target);
    } else if f.Cashout? {
      CashoutSettles(env, s, f, read, sk);
      if id in f.ids {
        CashoutFindsHeld(env, s, f, read, sk, id);
      }
    }
  }

  // ---- releases ----

  /** A release credited the whole hold, to its owner's real wallet. */
  ghost predicate ReleaseOk(s: State, id: HoldId)
    requires ReleaseKey(id) in s.db.guards
  {
    var w := s.db.guards[ReleaseKey(id)].wallet;
    id in s.db.holds && OwnsWallet(s, s.db.holds[id].user, Real, w) && BookedAmount(s, w, ReleaseKey(id)) == s.db.holds[id].amount
  }

  ghost predicate ReleasesInv(s: State) {
    forall id :: ReleaseKey(id) in s.db.guards ==> ReleaseOk(s, id)
  }

  lemma ReleasesFrame(s: State, s': State)
    requires ReleasesInv(s)
    requires s'.db.holds == s.db.holds && s'.db.guards == s.db.guards && s'.db.ledger == s.db.ledger
    requires forall user, w :: OwnsWallet(s, user, Real, w) ==> OwnsWallet(s', user, Real, w)
    ensures ReleasesInv(s')
  {
    forall id | ReleaseKey(id) in s'.db.guards ensures ReleaseOk(s', id) {
      assert ReleaseOk(s, id);
    }
  }

  lemma CommitKeepsReleases(env: Env, c: CallId, s: State, f: Flow, read: Snapshot, sk: SortKey)
    requires LedgerInv(s) && ReleasesInv(s) && CanPost(env, c, s, f, read, sk)
    ensures ReleasesInv(AfterCommit(s, MutationOf(env, f), read, sk))
  {
    var m := MutationOf(env, f);
    var s' := AfterCommit(s, m, read, sk);
    Footprint(env, f);
    forall id | ReleaseKey(id) in s'.db.guards ensures ReleaseOk(s', id) {
      if m.key == ReleaseKey(id) {
        ReleaseMovesHold(env, s, f, read, sk);
        NewlyBooked(s, m, read, sk, f.target);
      } else {
        assert ReleaseOk(s, id);
        HoldAfterPost(env, c, s, f, read, sk, true, id);
        BookedStays(s, m, read, sk, s.db.guards[ReleaseKey(id)].wallet, ReleaseKey(id));
      }
    }
  }

  lemma ReleasesPreserved(env: Env, c: CallId, a: Action, s: State)
    requires LedgerInv(s) && ReleasesInv(s) && Enabled(env, c, a, s)
    ensures ReleasesInv(Effect(env, c, a, s))
  {
    var s' := Effect(env, c, a, s);
    if a.Post? {
      CommitKeepsReleases(env, c, s, a.flow, a.read, a.sk);
      ReleasesFrame(AfterCommit(s, MutationOf(env, a.flow), a.read, a.sk), s');
    } else if a.OpenWallet? {
      ReleasesFrame(s, s');
    } else {
      LedgerUntouched(env, c, a, s);
      ReleasesFrame(s, s');
    }
  }

  ghost function ReleasedTerm(s: State, user: UserId, id: HoldId): int {
    if ReleaseKey(id) in s.db.guards && id in s.db.holds && s.db.holds[id].user == user
    then BookedAmount(s, s.db.guards[ReleaseKey(id)].wallet, ReleaseKey(id)) else 0
  }

  ghost function ReservedTerm(s: State, user: UserId, id: HoldId): int {
    if id in s.db.holds && s.db.holds[id].user == user then s.db.holds[id].amount else 0
  }

  /** Everything releases credited to a user, and everything the user's holds ever reserved. */
  ghost function ReleasedTo(s: State, user: UserId): int { Sum(s.db.holds.Keys, id => ReleasedTerm(s, user, id)) }
  ghost function ReservedBy(s: State, user: UserId): int { Sum(s.db.holds.Keys, id => ReservedTerm(s, user, id)) }

  /** Releases and cash-outs together never pay a user more than the user's holds reserved. */
  lemma CreditsWithinReserved(s: State, user: UserId)
    requires HoldsInv(s) && ReleasesInv(s) && ConservedInv(s)
    ensures CreditedTo(s, user) + ReleasedTo(s, user) <= ReservedBy(s, user)
  {
    forall id | id in s.db.holds ensures SettledTerm(s, user, id) + ReleasedTerm(s, user, id) <= ReservedTerm(s, user, id) {
      assert HoldOk(s, id) && (ReleaseKey(id) in s.db.guards ==> ReleaseOk(s, id));
    }
    SumsBelow(s.db.holds.Keys, id => SettledTerm(s, user, id), id => ReleasedTerm(s, user, id), id => ReservedTerm(s, user, id));
  }
}
