/** The ledger under any interleaving: what every commit keeps about balances, versions, entries,
    their order, and the idempotency guards. */
module Ledger {
  import opened Rows
  import opened Store
  import opened System

  /** Balance and version of a wallet row, as its committed entries determine them. */
  ghost predicate WalletsMatch(s: State) {
    && s.hist.Keys == s.db.wallets.Keys
    && forall w :: w in s.hist ==>
         && s.db.wallets[w].version == Some(|s.hist[w]|)
         && s.db.wallets[w].balance == Total(s.hist[w]) >= 0
  }

  ghost predicate EntryOk(s: State, w: WalletId, i: nat)
    requires w in s.hist && i < |s.hist[w]|
  {
    var e := s.hist[w][i];
    && e.wallet == w
    && e.balanceAfter == Total(s.hist[w][..i + 1]) >= 0
    && e.sk.ts <= s.clock
    && LedgerKey(w, e.sk) in s.db.ledger && s.db.ledger[LedgerKey(w, e.sk)] == e
    && e.key in s.db.guards && s.db.guards[e.key].wallet == w && s.db.guards[e.key].sk == e.sk
  }

  ghost predicate EntriesMatch(s: State) {
    forall w, i: nat :: w in s.hist && i < |s.hist[w]| ==> EntryOk(s, w, i)
  }

  /** Sort-key order is commit order. */
  ghost predicate InCommitOrder(h: seq<Entry>) {
    forall i, j :: 0 <= i < j < |h| ==> h[i].sk.ts < h[j].sk.ts
  }

  ghost predicate Ordered(s: State) {
    forall w :: w in s.hist ==> InCommitOrder(s.hist[w])
  }

  ghost predicate LedgerRowOk(s: State, k: LedgerKey)
    requires k in s.db.ledger
  {
    k.wallet in s.hist && s.db.ledger[k] in s.hist[k.wallet] && s.db.ledger[k].sk == k.sk
  }

  ghost predicate LedgerMatches(s: State) {
    forall k :: k in s.db.ledger ==> LedgerRowOk(s, k)
  }

  ghost predicate GuardOk(s: State, k: IdemKey)
    requires k in s.db.guards
  {
    var at := LedgerKey(s.db.guards[k].wallet, s.db.guards[k].sk);
    at in s.db.ledger && s.db.ledger[at].key == k
  }

  ghost predicate GuardsMatch(s: State) {
    forall k :: k in s.db.guards ==> GuardOk(s, k)
  }

  ghost predicate LedgerInv(s: State) {
    WalletsMatch(s) && EntriesMatch(s) && Ordered(s) && LedgerMatches(s) && GuardsMatch(s)
  }

  /** The entry a committed key names. */
  ghost function EntryOf(s: State, k: IdemKey): Entry
    requires k in s.db.guards && GuardOk(s, k)
  {
    s.db.ledger[LedgerKey(s.db.guards[k].wallet, s.db.guards[k].sk)]
  }

  lemma TotalAppend(h: seq<Entry>, e: Entry)
    ensures Total(h + [e]) == Total(h) + e.amount
  {
    assert (h + [e])[..|h|] == h;
  }

  /** Under the version condition the snapshot is the current row: nothing committed in between. */
  lemma SnapshotIsCurrent(s: State, m: Mutation, read: Snapshot, sk: SortKey)
    requires WalletsMatch(s) && Commits(s, m, read, sk)
    ensures read.version == |s.hist[m.wallet]| && read.balance == s.db.wallets[m.wallet].balance == Total(s.hist[m.wallet])
    ensures !m.credit ==> m.amount <= read.balance
  {
    assert s.hist[m.wallet][..read.version] == s.hist[m.wallet];
  }

  lemma CommitKeepsBalance(s: State, m: Mutation, read: Snapshot, sk: SortKey)
    requires LedgerInv(s) && Commits(s, m, read, sk)
    ensures var s' := AfterCommit(s, m, read, sk);
            && m.wallet in s'.db.wallets && s'.db.wallets[m.wallet].version == Some(|s'.hist[m.wallet]|)
            && s'.db.wallets[m.wallet].balance == Total(s'.hist[m.wallet]) >= 0
  {
    SnapshotIsCurrent(s, m, read, sk);
    TotalAppend(s.hist[m.wallet], EntryFor(m, read, sk));
  }

  lemma CommitKeepsOrder(s: State, m: Mutation, read: Snapshot, sk: SortKey)
    requires LedgerInv(s) && Commits(s, m, read, sk)
    ensures Ordered(AfterCommit(s, m, read, sk))
  {
    SnapshotIsCurrent(s, m, read, sk);
  }

  lemma CommitKeepsWallets(s: State, m: Mutation, read: Snapshot, sk: SortKey)
    requires LedgerInv(s) && Commits(s, m, read, sk)
    ensures WalletsMatch(AfterCommit(s, m, read, sk)) && Ordered(AfterCommit(s, m, read, sk))
  {
    CommitKeepsBalance(s, m, read, sk);
    CommitKeepsOrder(s, m, read, sk);
  }

  lemma NewEntryOk(s: State, m: Mutation, read: Snapshot, sk: SortKey)
    requires LedgerInv(s) && Commits(s, m, read, sk)
    ensures EntryOk(AfterCommit(s, m, read, sk), m.wallet, |s.hist[m.wallet]|)
  {
    var s' := AfterCommit(s, m, read, sk);
    SnapshotIsCurrent(s, m, read, sk);
    TotalAppend(s.hist[m.wallet], EntryFor(m, read, sk));
    assert s'.hist[m.wallet][..|s.hist[m.wallet]| + 1] == s'.hist[m.wallet];
  }

  lemma OldEntryOk(s: State, m: Mutation, read: Snapshot, sk: SortKey, w: WalletId, i: nat)
    requires LedgerInv(s) && Commits(s, m, read, sk)
    requires w in s.hist && i < |s.hist[w]|
    ensures EntryOk(AfterCommit(s, m, read, sk), w, i)
  {
    var s' := AfterCommit(s, m, read, sk);
    assert EntryOk(s, w, i);
    assert s'.hist[w][..i + 1] == s.hist[w][..i + 1];
  }

  lemma CommitKeepsRows(s: State, m: Mutation, read: Snapshot, sk: SortKey)
    requires LedgerInv(s) && Commits(s, m, read, sk)
    ensures LedgerMatches(AfterCommit(s, m, read, sk)) && GuardsMatch(AfterCommit(s, m, read, sk))
  {
    var s' := AfterCommit(s, m, read, sk);
    forall k | k in s'.db.ledger ensures LedgerRowOk(s', k) {
      if k != LedgerKey(m.wallet, sk) {
        assert LedgerRowOk(s, k);
      }
    }
    forall k | k in s'.db.guards ensures GuardOk(s', k) {
      if k != m.key {
        assert GuardOk(s, k);
      }
    }
  }

  lemma CommitKeepsLedger(s: State, m: Mutation, read: Snapshot, sk: SortKey)
    requires LedgerInv(s) && Commits(s, m, read, sk)
    ensures LedgerInv(AfterCommit(s, m, read, sk))
  {
    var s' := AfterCommit(s, m, read, sk);
    CommitKeepsWallets(s, m, read, sk);
    CommitKeepsRows(s, m, read, sk);
    forall w, i: nat | w in s'.hist && i < |s'.hist[w]| ensures EntryOk(s', w, i) {
      if w == m.wallet && i == |s.hist[w]| {
        NewEntryOk(s, m, read, sk);
      } else {
        OldEntryOk(s, m, read, sk, w, i);
      }
    }
  }

  lemma LedgerFrame(s: State, s': State)
    requires LedgerInv(s)
    requires s'.hist == s.hist && s'.db.wallets == s.db.wallets && s'.db.ledger == s.db.ledger && s'.db.guards == s.db.guards
    requires s.clock <= s'.clock
    ensures LedgerInv(s')
  {
    forall w, i: nat | w in s'.hist && i < |s'.hist[w]| ensures EntryOk(s', w, i) {
      assert EntryOk(s, w, i);
    }
    forall k | k in s'.db.ledger ensures LedgerRowOk(s', k) {
      assert LedgerRowOk(s, k);
    }
    forall k | k in s'.db.guards ensures GuardOk(s', k) {
      assert GuardOk(s, k);
    }
  }

  lemma OpenKeepsLedger(s: State, user: UserId, kind: WalletType, id: WalletId, overrides: Overrides)
    requires LedgerInv(s) && CanOpenWallet(s, user, kind, id)
    ensures LedgerInv(AfterOpenWallet(s, user, kind, id, overrides))
  {
    var s' := AfterOpenWallet(s, user, kind, id, overrides);
    forall w, i: nat | w in s'.hist && i < |s'.hist[w]| ensures EntryOk(s', w, i) {
      assert EntryOk(s, w, i);
    }
    forall k | k in s'.db.ledger ensures LedgerRowOk(s', k) {
      assert LedgerRowOk(s, k);
    }
    forall k | k in s'.db.guards ensures GuardOk(s', k) {
      assert GuardOk(s, k);
    }
  }

  /** Actions other than commits and wallet creation leave the ledger tables alone. */
  lemma LedgerUntouched(env: Env, c: CallId, a: Action, s: State)
    requires Enabled(env, c, a, s) && !a.Post? && !a.OpenWallet?
    ensures var s' := Effect(env, c, a, s);
            && s'.hist == s.hist && s'.db.wallets == s.db.wallets && s'.db.ledger == s.db.ledger && s'.db.guards == s.db.guards
            && s'.db.markers == s.db.markers && s'.db.holds == s.db.holds && s.clock <= s'.clock
  {
  }

  /** Every action of every call keeps the ledger invariant. */
  lemma LedgerPreserved(env: Env, c: CallId, a: Action, s: State)
    requires LedgerInv(s) && Enabled(env, c, a, s)
    ensures LedgerInv(Effect(env, c, a, s))
  {
    var s' := Effect(env, c, a, s);
    if a.Post? {
      CommitKeepsLedger(s, MutationOf(env, a.flow), a.read, a.sk);
      LedgerFrame(AfterCommit(s, MutationOf(env, a.flow), a.read, a.sk), s');
    } else if a.OpenWallet? {
      OpenKeepsLedger(s, a.user, a.kind, a.id, a.overrides);
    } else {
      LedgerUntouched(env, c, a, s);
      LedgerFrame(s, s');
    }
  }
}
