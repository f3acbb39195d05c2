/** The fingerprint an idempotency guard keeps is that of the row its operation wrote: a request under the same key
    conflicts exactly when it asks for something else. And an entry's kind is that of the operation its key names. */
module Fingerprints {
  import opened Rows
  import opened Store
  import opened System
  import opened Growth

  ghost predicate DepositPrint(s: State, txid: Txid) {
    DepositKey(txid) in s.db.guards ==>
      txid in s.db.deposits && s.db.guards[DepositKey(txid)].hash == ReqHash(DepositRef(txid), s.db.deposits[txid].amount)
  }

  ghost predicate HoldPrint(s: State, id: HoldId) {
    HoldKey(id) in s.db.guards ==>
      id in s.db.holds && s.db.guards[HoldKey(id)].hash == ReqHash(Text(s.db.holds[id].table), s.db.holds[id].amount)
  }

  ghost predicate ReleasePrint(s: State, id: HoldId) {
    ReleaseKey(id) in s.db.guards ==>
      id in s.db.holds && s.db.guards[ReleaseKey(id)].hash == ReqHash(HoldRef(id), s.db.holds[id].amount)
  }

  ghost predicate PrintsInv(s: State) {
    && (forall txid :: DepositPrint(s, txid))
    && (forall id :: HoldPrint(s, id))
    && (forall id :: ReleasePrint(s, id))
  }

  /** Which operation wrote an entry of a kind, and in which direction it moved money. */
  predicate KindFits(e: Entry) {
    match e.kind
    case Deposit => e.key.DepositKey? && e.amount >= 0
    case Withdraw => e.key.WithdrawKey? && e.amount <= 0
    case Reversal => e.key.ReverseKey? && e.amount >= 0
    case BillingDebit => e.key.BillingKey? && e.amount <= 0
    case HoldDebit => e.key.HoldKey? && e.amount <= 0
    case HoldRelease => e.key.ReleaseKey? && e.amount >= 0
    case CashoutCredit => e.key.CashoutKey? && e.amount >= 0
    case SandboxCredit => e.key.SandboxKey? && e.key.credit && e.amount >= 0
    case SandboxDebit => e.key.SandboxKey? && !e.key.credit && e.amount <= 0
  }

  ghost predicate KindsInv(s: State) {
    forall w, i :: w in s.hist && 0 <= i < |s.hist[w]| ==> KindFits(s.hist[w][i])
  }

  lemma NewKindFits(env: Env, f: Flow, read: Snapshot, sk: SortKey)
    ensures KindFits(EntryFor(MutationOf(env, f), read, sk))
  {
  }

  lemma HistoryUntouched(env: Env, c: CallId, a: Action, s: State)
    requires Enabled(env, c, a, s) && !a.Post? && !a.OpenWallet?
    ensures Effect(env, c, a, s).hist == s.hist
  {
  }

  /** Every entry any action writes is of the kind its key calls for, debits negative and credits positive. */
  lemma KindsPreserved(env: Env, c: CallId, a: Action, s: State)
    requires KindsInv(s) && Enabled(env, c, a, s)
    ensures KindsInv(Effect(env, c, a, s))
  {
    hide Known, MutationOf, KindFits, EntryFor;
    if a.Post? {
      NewKindFits(env, a.flow, a.read, a.sk);
    } else if !a.OpenWallet? {
      HistoryUntouched(env, c, a, s);
    }
  }

  /** A key that has committed keeps its guard, and its row keeps what the fingerprint covers. */
  lemma OldPrintsStay(s: State, s': State, k: IdemKey)
    requires PrintsInv(s) && Later(s, s') && k in s.db.guards
    ensures k.DepositKey? ==> DepositPrint(s', k.txid)
    ensures k.HoldKey? ==> HoldPrint(s', k.hold)
    ensures k.ReleaseKey? ==> ReleasePrint(s', k.hold)
  {
    if k.DepositKey? {
      assert DepositPrint(s, k.txid);
    } else if k.HoldKey? {
      assert HoldPrint(s, k.hold);
    } else if k.ReleaseKey? {
      assert ReleasePrint(s, k.hold);
    }
  }

  /** What the commit of a flow leaves under its own key. */
  lemma NewPrint(env: Env, c: CallId, s: State, f: Flow, read: Snapshot, sk: SortKey, answered: bool)
    requires CanPost(env, c, s, f, read, sk)
    ensures var s' := AfterPost(env, c, s, f, read, sk, answered);
            && (f.ConfirmDeposit? ==> DepositPrint(s', f.txid)) && (f.PlaceHold? ==> HoldPrint(s', f.id))
            && (f.ReleaseHold? ==> ReleasePrint(s', f.id))
  {
    CommitGrows(env, c, s, f, read, sk, answered);
    if f.PlaceHold? {
      assert MutationOf(env, f).holds[f.id] == PutHoldRow(f.hold);
    }
  }

  lemma PrintsKept(s: State, s': State, k: Option<IdemKey>)
    requires PrintsInv(s) && Later(s, s')
    requires forall l :: l in s'.db.guards ==> l in s.db.guards || k == Some(l)
    requires k.Some? && k.value.DepositKey? ==> DepositPrint(s', k.value.txid)
    requires k.Some? && k.value.HoldKey? ==> HoldPrint(s', k.value.hold)
    requires k.Some? && k.value.ReleaseKey? ==> ReleasePrint(s', k.value.hold)
    ensures PrintsInv(s')
  {
    hide Later;
    forall txid ensures DepositPrint(s', txid) {
      if DepositKey(txid) in s.db.guards { OldPrintsStay(s, s', DepositKey(txid)); }
    }
    forall id ensures HoldPrint(s', id) {
      if HoldKey(id) in s.db.guards { OldPrintsStay(s, s', HoldKey(id)); }
    }
    forall id ensures ReleasePrint(s', id) {
      if ReleaseKey(id) in s.db.guards { OldPrintsStay(s, s', ReleaseKey(id)); }
    }
  }

  /** Only a commit writes a guard. */
  lemma GuardsUntouched(env: Env, c: CallId, a: Action, s: State)
    requires Enabled(env, c, a, s) && !a.Post?
    ensures Effect(env, c, a, s).db.guards == s.db.guards
  {
  }

  lemma PostKeepsPrints(env: Env, c: CallId, s: State, f: Flow, read: Snapshot, sk: SortKey, answered: bool)
    requires PrintsInv(s) && CanPost(env, c, s, f, read, sk)
    ensures PrintsInv(AfterPost(env, c, s, f, read, sk, answered))
  {
    var s' := AfterPost(env, c, s, f, read, sk, answered);
    CommitGrows(env, c, s, f, read, sk, answered);
    NewPrint(env, c, s, f, read, sk, answered);
    Footprint(env, f);
    KeyOf(env, f);
    PrintsKept(s, s', Some(MutationOf(env, f).key));
  }

  lemma KeyOf(env: Env, f: Flow)
    ensures f.ConfirmDeposit? ==> MutationOf(env, f).key == DepositKey(f.txid)
    ensures f.PlaceHold? ==> MutationOf(env, f).key == HoldKey(f.id)
    ensures f.ReleaseHold? ==> MutationOf(env, f).key == ReleaseKey(f.id)
  {
  }

  /** Every action of every call keeps each guard's fingerprint that of its row. */
  lemma PrintsPreserved(env: Env, c: CallId, a: Action, s: State)
    requires PrintsInv(s) && s.hist.Keys == s.db.wallets.Keys && Enabled(env, c, a, s)
    ensures PrintsInv(Effect(env, c, a, s))
  {
    hide PrintsInv, Known, Commits, Later;
    if a.Post? {
      PostKeepsPrints(env, c, s, a.flow, a.read, a.sk, a.answered);
    } else {
      StepGrows(env, c, a, s);
      GuardsUntouched(env, c, a, s);
      PrintsKept(s, Effect(env, c, a, s), None);
    }
  }
}
