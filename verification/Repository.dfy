/** The wallet repository: every balance change, and the compare-and-set bookkeeping around it, as the code
    performs it, one access at a time. */
module Repository {
  import opened Rows
  import opened Store
  import opened System
  import opened Ledger
  import opened Withdrawals
  import opened Deposits
  import opened Growth
  import opened Fingerprints
  import opened Runs
  import opened Books
  import opened Holds
  import opened Theorems
  import opened Calls

  datatype Outcome = Done(entry: Entry) | Replayed(entry: Entry) | Conflict | Insufficient | Failed

  /** The key of m has committed with m's fingerprint, and e is the entry of that commit. */
  ghost predicate Committed(s: State, m: Mutation, e: Entry) {
    m.key in s.db.guards && s.db.guards[m.key].hash == m.hash && GuardOk(s, m.key) && e == EntryOf(s, m.key)
  }

  /** What a reported outcome says about the store. */
  ghost predicate Reported(s: State, m: Mutation, o: Outcome) {
    match o
    case Done(e) => Committed(s, m, e) && e.wallet == m.wallet && e.amount == Signed(m)
    case Replayed(e) => Committed(s, m, e)
    case Conflict => m.key in s.db.guards && s.db.guards[m.key].hash != m.hash
    case Insufficient => !m.credit
    case Failed => true
  }

  ghost predicate MovedOn(start: State, s: State, w: WalletId) {
    |HistoryOf(start, w)| < |HistoryOf(s, w)|
  }

  /** Why a commit sent between two states was refused: another entry was committed on its wallet meanwhile, a debit
      exceeds what the wallet held, its key was taken, or at some moment a row or the counters it names were not as
      they must be. */
  ghost predicate Beaten(env: Env, start: State, s: State, m: Mutation) {
    || MovedOn(start, s, m.wallet)
    || (!m.credit && m.amount > Holding(start, m.wallet))
    || m.key in s.db.guards
    || exists at :: Within(env, start, at, s) && !SideConditions(at.db, m)
  }

  /** Where no access failed, a balance change is given up only for a commit that was refused, whose key has still not
      committed. Every refused debit is answered as a debit beyond the balance. */
  ghost predicate Explained(env: Env, start: State, s: State, m: Mutation, o: Outcome) {
    && (o.Failed? || o.Insufficient? ==> m.key !in s.db.guards && Beaten(env, start, s, m))
    && (o.Failed? ==> m.credit)
  }

  /** With the wallet as it was read and the stamp taken after it, nothing else can refuse the commit. */
  lemma RefusedBecause(env: Env, start: State, s: State, m: Mutation, read: Snapshot, sk: SortKey)
    requires Reachable(env, start) && Reachable(env, s) && Later(start, s) && m.wallet in start.db.wallets
    requires read == Snapshot(start.db.wallets[m.wallet].balance, |HistoryOf(start, m.wallet)|)
    requires WalletRead(s, m.wallet, read) && StampedAfter(s, m.wallet, read, sk.ts) && !Commits(s, m, read, sk)
    ensures Beaten(env, start, s, m)
  {
    if !MovedOn(start, s, m.wallet) {
      StillCurrent(env, start, s, m.wallet, sk);
      if m.key !in s.db.guards && (m.credit || m.amount <= Holding(start, m.wallet)) {
        LaterRefl(s);
        assert Within(env, start, s, s) && !SideConditions(s.db, m);
      }
    }
  }

  lemma StillCurrent(env: Env, start: State, s: State, w: WalletId, sk: SortKey)
    requires Reachable(env, start) && Reachable(env, s) && Later(start, s) && w in start.db.wallets && !MovedOn(start, s, w)
    ensures w in s.db.wallets && w in s.hist && w in start.hist && s.hist[w] == start.hist[w]
    ensures s.db.wallets[w].balance == start.db.wallets[w].balance && s.db.wallets[w].version == Some(|s.hist[w]|)
    ensures (forall i :: 0 <= i < |s.hist[w]| ==> s.hist[w][i].sk.ts < sk.ts) ==> LedgerKey(w, sk) !in s.db.ledger
  {
    LedgerOf(env, start);
    LedgerOf(env, s);
    assert LedgerKey(w, sk) in s.db.ledger ==> LedgerRowOk(s, LedgerKey(w, sk));
  }

  lemma LedgerOf(env: Env, s: State)
    requires Reachable(env, s)
    ensures LedgerInv(s)
  {
    ReachableInv(env, s);
  }

  /** A refusal between two states is one between any two that enclose them. */
  lemma BeatenWider(env: Env, start: State, from: State, to: State, s: State, m: Mutation)
    requires Beaten(env, from, to, m) && Later(start, from) && Later(to, s) && Reachable(env, start) && Reachable(env, from)
    requires Later(from, to)
    ensures Beaten(env, start, s, m)
  {
    HistoryGrows(start, from, m.wallet);
    HistoryGrows(from, to, m.wallet);
    HistoryGrows(to, s, m.wallet);
    if !MovedOn(start, s, m.wallet) && m.key !in s.db.guards {
      SameHolding(env, start, from, m.wallet);
      if m.credit || m.amount <= Holding(start, m.wallet) {
        var at :| Within(env, from, at, to) && !SideConditions(at.db, m);
        WithinWider(env, start, from, at, to, s);
      }
    }
  }

  lemma HistoryGrows(s: State, s': State, w: WalletId)
    requires Later(s, s')
    ensures HistoryOf(s, w) <= HistoryOf(s', w)
  {
  }

  lemma SameHolding(env: Env, s: State, s': State, w: WalletId)
    requires Reachable(env, s) && Reachable(env, s') && Later(s, s') && !MovedOn(s, s', w)
    ensures Holding(s', w) == Holding(s, w)
  {
    HoldingIsTotal(env, s, w);
    HoldingIsTotal(env, s', w);
    HistoryGrows(s, s', w);
    assert HistoryOf(s, w) == HistoryOf(s', w);
  }

  lemma HoldingIsTotal(env: Env, s: State, w: WalletId)
    requires Reachable(env, s)
    ensures Holding(s, w) == Total(HistoryOf(s, w))
  {
    LedgerOf(env, s);
    if w in s.db.wallets {
      assert s.hist[w][..|s.hist[w]|] == s.hist[w];
    }
  }

  ghost predicate Posted(f: Flow, did: seq<Action>, did': seq<Action>, answered: bool) {
    && |did'| == |did| + 1 && did <= did'
    && did'[|did|].Post? && did'[|did|].flow == f && did'[|did|].answered == answered
  }

  /** What the call itself did: one commit when it reports done, at most one unanswered commit when it
      reports an error, and nothing in every other case. */
  ghost predicate Acted(f: Flow, did: seq<Action>, did': seq<Action>, o: Outcome) {
    match o
    case Done(_) => Posted(f, did, did', true)
    case Failed => did' == did || Posted(f, did, did', false)
    case _ => did' == did
  }

  /** An answered debit leaves the call with its row and the right to ask the payout. */
  ghost predicate MayAsk(me: CallId, s: State, f: Flow)
    requires f.PayOut?
  {
    f.wid in s.payer && s.payer[f.wid] == me && KnowsWithdrawal(s, f.wid, f.withdrawal)
  }

  lemma CommittedStays(s: State, s': State, m: Mutation, e: Entry)
    requires Committed(s, m, e) && Later(s, s')
    ensures Committed(s', m, e)
  {
  }

  /** The wallet a flow names exists. */
  lemma FlowHasWallet(env: Env, s: State, f: Flow)
    requires Reachable(env, s) && Known(env, s, f)
    ensures MutationOf(env, f).wallet in s.db.wallets
  {
    ReachableInv(env, s);
    if f.Reverse? {
      RowExactlyWhenDebited(env, s, f.wid);
      GuardNamesItsEntry(env, s, WithdrawKey(f.wid), "", 0);
    }
  }

  lemma JustCommitted(env: Env, c: CallId, s: State, f: Flow, read: Snapshot, sk: SortKey)
    requires Commits(s, MutationOf(env, f), read, sk)
    ensures Reported(AfterPost(env, c, s, f, read, sk, true), MutationOf(env, f), Done(EntryFor(MutationOf(env, f), read, sk)))
    ensures f.PayOut? ==> MayAsk(c, AfterPost(env, c, s, f, read, sk, true), f)
  {
    hide MutationOf, Commits, WalletRead;
    if f.PayOut? {
      JustDebited(env, c, s, f, read, sk);
    }
  }

  lemma JustDebited(env: Env, c: CallId, s: State, f: Flow, read: Snapshot, sk: SortKey)
    requires f.PayOut? && Commits(s, MutationOf(env, f), read, sk)
    ensures MayAsk(c, AfterPost(env, c, s, f, read, sk, true), f)
  {
    PayOutAddsRow(env, s, f, read, sk);
  }

  lemma TickIsRelied(env: Env, me: CallId, s: State, now: Time)
    requires s.clock <= now
    ensures Rely(env, me, s, s.(clock := now))
  {
    RailGrows(s, s.(clock := now));
  }

  /** Reads the wallet as it is and then the clock. The timestamp is later than every entry the read counted, and
      still is when the commit comes. */
  method ReadAndStamp(c: Call, w: WalletId) returns (read: Snapshot, now: Time)
    requires c.Valid() && w in c.sys.db.wallets
    modifies c`sys
    ensures c.Valid() && Rely(c.env, c.me, old(c.sys), c.sys)
    ensures read == Snapshot(old(c.sys).db.wallets[w].balance, |HistoryOf(old(c.sys), w)|)
    ensures WalletRead(c.sys, w, read) && StampedAfter(c.sys, w, read, now)
  {
    ghost var start := c.sys;
    read := c.GetWallet(w);
    c.Pause();
    ghost var unstamped := c.sys;
    ReadStays(start, unstamped, w, read);
    now := c.NowStr();
    ghost var stamped := c.sys;
    StampIsLater(c.env, unstamped, w, read, now);
    TickIsRelied(c.env, c.me, unstamped, now);
    RelyTrans(c.env, c.me, start, unstamped, stamped);
    c.Pause();
    ReadStays(stamped, c.sys, w, read);
    RelyTrans(c.env, c.me, start, stamped, c.sys);
  }

  /** The commit, and what its answer says. */
  method CommitEntry(c: Call, f: Flow, read: Snapshot, sk: SortKey) returns (a: Answer, e: Entry)
    requires c.Valid() && Known(c.env, c.sys, f) && (f.ConfirmDeposit? ==> MayRun(c.env, c.me, c.sys, f.txid))
    requires WalletRead(c.sys, MutationOf(c.env, f).wallet, read) && StampedAfter(c.sys, MutationOf(c.env, f).wallet, read, sk.ts)
    modifies c`sys, c`did, c`tried, c`faults
    ensures c.Valid() && Later(old(c.sys), c.sys) && TokensKept(c.me, old(c.sys), c.sys)
    ensures a.Applied? ==> Reported(c.sys, MutationOf(c.env, f), Done(e)) && Posted(f, old(c.did), c.did, true)
    ensures a.Applied? && f.PayOut? ==> MayAsk(c.me, c.sys, f)
    ensures a.Refused? ==> c.did == old(c.did)
    ensures a.NoAnswer? ==> c.did == old(c.did) || Posted(f, old(c.did), c.did, false)
    ensures a.Refused? ==> !Commits(c.sys, MutationOf(c.env, f), read, sk) && c.sys == old(c.sys)
    ensures c.tried == old(c.tried) + [f] && c.faults == old(c.faults) + (if a.NoAnswer? then 1 else 0)
  {
    hide Later, Known, MutationOf, Commits, AfterPost, WalletRead, Reported;
    ghost var ready := c.sys;
    a := c.Commit(f, read, sk);
    e := EntryFor(MutationOf(c.env, f), read, sk);
    if a.Applied? {
      JustCommitted(c.env, c.me, ready, f, read, sk);
    }
  }

  lemma ThenLater(env: Env, me: CallId, s: State, t: State, u: State)
    requires Rely(env, me, s, t) && Later(t, u) && TokensKept(me, t, u)
    ensures Later(s, u) && TokensKept(me, s, u)
  {
    LaterTrans(s, t, u);
  }

  /** Reads the wallet, stamps the entry, commits: what every balance change does once no guard was seen. */
  method Attempt(c: Call, f: Flow) returns (a: Answer, e: Entry)
    requires c.Valid() && Known(c.env, c.sys, f) && (f.ConfirmDeposit? ==> MayRun(c.env, c.me, c.sys, f.txid))
    modifies c`sys, c`did, c`tried, c`faults
    ensures c.Valid() && Later(old(c.sys), c.sys) && TokensKept(c.me, old(c.sys), c.sys)
    ensures a.Applied? ==> Reported(c.sys, MutationOf(c.env, f), Done(e)) && Posted(f, old(c.did), c.did, true)
    ensures a.Applied? && f.PayOut? ==> MayAsk(c.me, c.sys, f)
    ensures a.Refused? ==> c.did == old(c.did)
    ensures a.NoAnswer? ==> c.did == old(c.did) || Posted(f, old(c.did), c.did, false)
    ensures a.Refused? ==> Beaten(c.env, old(c.sys), c.sys, MutationOf(c.env, f))
    ensures c.tried == old(c.tried) + [f] && c.faults == old(c.faults) + (if a.NoAnswer? then 1 else 0)
  {
    hide Later, Known, Enabled, Effect, Reachable, Commits, Beaten, MutationOf;
    ghost var start := c.sys;
    FlowHasWallet(c.env, c.sys, f);
    var id: string := *;
    var read, now := ReadAndStamp(c, MutationOf(c.env, f).wallet);
    ghost var ready := c.sys;
    KnownStays(c.env, start, ready, f);
    a, e := CommitEntry(c, f, read, SortKey(now, id));
    ThenLater(c.env, c.me, start, ready, c.sys);
    if a.Refused? {
      RefusedBecause(c.env, start, c.sys, MutationOf(c.env, f), read, SortKey(now, id));
    }
  }

  /** What a refused commit means: the guard is there after all, or a debit found too little, or a credit
      lost its wallet's version. */
  method ResolveTxErr(c: Call, m: Mutation, ghost start: State) returns (o: Outcome)
    requires c.Valid() && Beaten(c.env, start, c.sys, m)
    modifies c`faults
    ensures Reported(c.sys, m, o) && !o.Done? && c.faults >= old(c.faults)
    ensures c.faults == old(c.faults) ==> Explained(c.env, start, c.sys, m, o)
  {
    var r := c.CheckReplay(m.key, m.hash);
    match r
    case ReadFailed => o := Failed;
    case Mismatch => o := Conflict;
    case Prior(e) => o := Replayed(e);
    case Fresh => o := if m.credit then Failed else Insufficient;
  }

  /** A commit attempt and what its refusal means. */
  method Settle(c: Call, f: Flow) returns (o: Outcome)
    requires c.Valid() && Known(c.env, c.sys, f) && (f.ConfirmDeposit? ==> MayRun(c.env, c.me, c.sys, f.txid))
    modifies c`sys, c`did, c`tried, c`faults
    ensures c.Valid() && Later(old(c.sys), c.sys) && TokensKept(c.me, old(c.sys), c.sys)
    ensures Reported(c.sys, MutationOf(c.env, f), o) && Acted(f, old(c.did), c.did, o)
    ensures o.Done? && f.PayOut? ==> MayAsk(c.me, c.sys, f)
    ensures c.tried == old(c.tried) + [f] && c.faults >= old(c.faults)
    ensures c.faults == old(c.faults) ==> Explained(c.env, old(c.sys), c.sys, MutationOf(c.env, f), o)
  {
    hide Later, Reachable, MutationOf, Known, Beaten;
    var a, e := Attempt(c, f);
    if a.Applied? {
      return Done(e);
    }
    if a.NoAnswer? {
      return Failed;
    }
    ghost var start, refused := old(c.sys), c.sys;
    c.Pause();
    LaterTrans(start, refused, c.sys);
    LaterRefl(start);
    BeatenWider(c.env, start, start, refused, c.sys, MutationOf(c.env, f));
    o := ResolveTxErr(c, MutationOf(c.env, f), start);
  }

  /** Re-applies the lifecycle rows of a committed key. Nothing this code can reach is changed by it. */
  method Repair(c: Call, f: Flow) returns (failed: bool)
    requires c.Valid() && MutationOf(c.env, f).key in c.sys.db.guards
    modifies c`faults
    ensures c.faults == old(c.faults) + (if failed then 1 else 0)
    ensures !failed && (f.PayOut? || f.ConfirmDeposit?) ==>
        TransactWrite(c.sys.db, RepairTx(MutationOf(c.env, f))).ConditionFailed?
  {
    failed := false;
    if f.PayOut? || f.ConfirmDeposit? {
      failed := *;
      if failed {
        c.faults := c.faults + 1;
        return;
      }
      RepairIsANoOp(c.env, c.sys, f);
      var refused := c.Refuses(RepairTx(MutationOf(c.env, f)));
      assert refused;
    }
  }

  /** A single-wallet balance change, at most once per key. */
  method Mutate(c: Call, f: Flow) returns (o: Outcome)
    requires c.Valid() && Known(c.env, c.sys, f) && (f.ConfirmDeposit? ==> MayRun(c.env, c.me, c.sys, f.txid))
    modifies c`sys, c`did, c`tried, c`faults
    ensures c.Valid() && Later(old(c.sys), c.sys) && TokensKept(c.me, old(c.sys), c.sys)
    ensures Reported(c.sys, MutationOf(c.env, f), o) && Acted(f, old(c.did), c.did, o)
    ensures o.Done? && f.PayOut? ==> MayAsk(c.me, c.sys, f)
    ensures c.faults >= old(c.faults) && old(c.tried) <= c.tried
    ensures c.faults == old(c.faults) ==>
        Explained(c.env, old(c.sys), c.sys, MutationOf(c.env, f), o)
        && (o.Failed? || o.Insufficient? ==> c.tried == old(c.tried) + [f])
  {
    hide Reachable, MutationOf, Known, MayAsk, Beaten;
    var m := MutationOf(c.env, f);
    var r := c.CheckReplay(m.key, m.hash);
    ghost var start := c.sys;
    c.Pause();
    ghost var paused := c.sys;
    match r
    case ReadFailed => o := Failed;
    case Mismatch => o := Conflict;
    case Prior(e) => o := Replay(c, f, e, start);
    case Fresh =>
      o := SettleKnown(c, f, start);
      LaterTrans(start, paused, c.sys);
  }

  /** The key had committed: its entry is the answer, once the lifecycle rows have been re-applied. */
  method Replay(c: Call, f: Flow, e: Entry, ghost read: State) returns (o: Outcome)
    requires c.Valid() && Committed(read, MutationOf(c.env, f), e) && Later(read, c.sys)
    modifies c`faults
    ensures Reported(c.sys, MutationOf(c.env, f), o) && (o == Replayed(e) || o == Failed)
    ensures c.faults == old(c.faults) + (if o.Failed? then 1 else 0)
  {
    CommittedStays(read, c.sys, MutationOf(c.env, f), e);
    var failed := Repair(c, f);
    o := if failed then Failed else Replayed(e);
  }

  /** No guard was seen: what was known before the pause is enough to go on. */
  method SettleKnown(c: Call, f: Flow, ghost read: State) returns (o: Outcome)
    requires c.Valid() && Reachable(c.env, read) && Known(c.env, read, f) && Rely(c.env, c.me, read, c.sys)
    requires f.ConfirmDeposit? ==> MayRun(c.env, c.me, read, f.txid)
    modifies c`sys, c`did, c`tried, c`faults
    ensures c.Valid() && Later(old(c.sys), c.sys) && TokensKept(c.me, read, c.sys)
    ensures Reported(c.sys, MutationOf(c.env, f), o) && Acted(f, old(c.did), c.did, o)
    ensures o.Done? && f.PayOut? ==> MayAsk(c.me, c.sys, f)
    ensures c.tried == old(c.tried) + [f] && c.faults >= old(c.faults)
    ensures c.faults == old(c.faults) ==> Explained(c.env, read, c.sys, MutationOf(c.env, f), o)
  {
    hide Reachable, Known, Beaten, MutationOf;
    ghost var start := c.sys;
    KnownStays(c.env, read, start, f);
    o := Settle(c, f);
    ExplainedWider(c.env, read, start, c.sys, MutationOf(c.env, f), o, c.faults == old(c.faults));
  }

  lemma ExplainedWider(env: Env, start: State, from: State, s: State, m: Mutation, o: Outcome, clean: bool)
    requires clean ==> Explained(env, from, s, m, o)
    requires Later(start, from) && Later(from, s) && Reachable(env, start) && Reachable(env, from)
    ensures clean ==> Explained(env, start, s, m, o)
  {
    LaterRefl(s);
    if clean && (o.Failed? || o.Insufficient?) {
      BeatenWider(env, start, from, s, s, m);
    }
  }

  // ---- withdrawals ----

  /** The reversed mark with the slot where the row and the counters allow it; otherwise the plain mark, unless the row
      carries it already. */
  ghost function ReversedSteps(env: Env, s: State, wid: WithdrawalId, slot: Option<Counters>, acted: bool): seq<Action> {
    if CanMarkReversed(env, s, wid, slot) then [MarkReversed(wid, slot)]
    else if acted then [SetWithdrawal(wid, Reversed, RailFailed)]
    else []
  }

  /** Records a reversal whose credit is committed. Whatever is refused on the way, an answer without an error
      means the row is reversed: a slot whose counters moved on is given up, never the mark. */
  method MarkWithdrawalReversed(c: Call, wid: WithdrawalId, row: WithdrawalRow, slot: Option<Counters>) returns (ok: bool)
    requires c.Valid() && KnowsWithdrawal(c.sys, wid, row) && ReverseKey(wid) in c.sys.db.guards
    requires slot.Some? ==> slot.value.day == c.env.dayOf(row.createdAt)
    modifies c`sys, c`did, c`tried, c`faults
    ensures c.Valid() && Later(old(c.sys), c.sys)
    ensures c.faults >= old(c.faults) && (c.faults == old(c.faults) ==> ok) && old(c.did) <= c.did && c.tried == old(c.tried)
    ensures ok ==> wid in c.sys.db.withdrawals && c.sys.db.withdrawals[wid].status == Reversed
    ensures c.faults == old(c.faults) ==> c.did == old(c.did) + ReversedSteps(c.env, old(c.sys), wid, slot, |c.did| > |old(c.did)|)
  {
    hide Reachable, CanMarkReversed, Later, ReversedSteps;
    ghost var start := c.sys;
    var a := c.WriteReversed(wid, row, slot);
    if a.Refused? {
      ok := MarkUnlessReversed(c, wid);
    } else {
      ok := a.Applied?;
    }
    if c.faults == old(c.faults) {
      StepsWere(c.env, start, wid, slot, old(c.did), c.did);
    }
  }

  lemma StepsWere(env: Env, s: State, wid: WithdrawalId, slot: Option<Counters>, did: seq<Action>, did': seq<Action>)
    requires if CanMarkReversed(env, s, wid, slot) then did' == did + [MarkReversed(wid, slot)]
             else did' == did || did' == did + [SetWithdrawal(wid, Reversed, RailFailed)]
    ensures did' == did + ReversedSteps(env, s, wid, slot, |did'| > |did|)
  {
    hide CanMarkReversed;
  }

  /** The plain mark, when the row does not carry it already. */
  method MarkUnlessReversed(c: Call, wid: WithdrawalId) returns (ok: bool)
    requires c.Valid() && wid in c.sys.db.withdrawals && ReverseKey(wid) in c.sys.db.guards
    modifies c`sys, c`did, c`tried, c`faults
    ensures c.Valid() && Later(old(c.sys), c.sys) && c.tried == old(c.tried) && old(c.did) <= c.did
    ensures c.faults >= old(c.faults) && (c.faults == old(c.faults) ==> ok)
    ensures ok ==> wid in c.sys.db.withdrawals && c.sys.db.withdrawals[wid].status == Reversed
    ensures ok ==> c.did == old(c.did) || c.did == old(c.did) + [SetWithdrawal(wid, Reversed, RailFailed)]
  {
    hide Reachable, KeptFor;
    ghost var start := c.sys;
    c.Pause();
    if * {
      c.faults := c.faults + 1;
      return false;
    }
    var current := c.GetWithdrawal(wid);
    if current.Some? && current.value.status == Reversed {
      return true;
    }
    ghost var read := c.sys;
    c.Pause();
    LaterTrans(start, read, c.sys);
    ghost var before := c.sys;
    var a := c.UpdateWithdrawal(wid, Reversed, RailFailed);
    LaterTrans(start, before, c.sys);
    ok := a.Applied?;
  }

  // ---- wallets ----

  /** The user's wallet of a type, created on first use. Concurrent callers all get the one wallet the marker
      names; a caller that lost the creation and then read a stale marker gets none. */
  method EnsureWallet(c: Call, user: UserId, kind: WalletType) returns (r: Option<WalletId>)
    requires c.Valid()
    modifies c`sys, c`did, c`tried, c`faults
    ensures c.Valid() && Later(old(c.sys), c.sys) && TokensKept(c.me, old(c.sys), c.sys)
    ensures OnlyOpened(user, kind, old(c.Record()), c.Record())
    ensures r.Some? ==> OwnsWallet(c.sys, user, kind, r.value)
    ensures c.faults >= old(c.faults) && (c.faults == old(c.faults) ==> r.Some?)
  {
    hide Later, Reachable, OwnsWallet;
    LaterRefl(c.sys);
    r := c.LoadByMarker(user, kind);
    if r.Some? {
      return;
    }
    ghost var start := c.sys;
    c.Pause();
    ghost var before := c.sys;
    var a, id := c.CreateWallet(user, kind);
    LaterTrans(start, before, c.sys);
    if a.Applied? {
      return Some(id);
    }
    if a.Refused? {
      ghost var refused := c.sys;
      r := LoadAgain(c, user, kind);
      LaterTrans(start, refused, c.sys);
    }
  }

  method LoadAgain(c: Call, user: UserId, kind: WalletType) returns (r: Option<WalletId>)
    requires c.Valid() && Owner(user, kind) in c.sys.db.markers
    modifies c`sys, c`faults
    ensures c.Valid() && Later(old(c.sys), c.sys) && TokensKept(c.me, old(c.sys), c.sys)
    ensures r.Some? ==> OwnsWallet(c.sys, user, kind, r.value)
    ensures c.faults >= old(c.faults) && (c.faults == old(c.faults) ==> r.Some?)
  {
    c.Pause();
    r := c.LoadByMarker(user, kind);
  }

  // ---- holds ----

  datatype HoldResult = Resolved(hold: Option<HoldRow>, replayed: bool) | HoldConflict | HoldFailed

  /** The reservation committed: its guard leads to a debit of the held amount. */
  ghost predicate Reservation(s: State, id: HoldId) {
    HoldKey(id) in s.db.guards && GuardOk(s, HoldKey(id))
  }

  /** The reservation under this id is for another amount or table. */
  ghost predicate HoldTaken(s: State, id: HoldId, row: HoldRow) {
    id in s.db.holds && (s.db.holds[id].amount != row.amount || s.db.holds[id].table != row.table)
  }

  lemma PlaceHoldIs(env: Env, id: HoldId, row: HoldRow)
    ensures var m := MutationOf(env, PlaceHold(id, row));
            && m.key == HoldKey(id) && m.hash == ReqHash(Text(row.table), row.amount)
            && !m.credit && m.amount == row.amount && m.wallet == row.wallet
  {
  }

  /** What a guard found under a hold's key says of the hold: it is the one asked for, or another. */
  lemma HoldUnderKey(env: Env, s: State, id: HoldId, row: HoldRow)
    requires Reachable(env, s) && HoldKey(id) in s.db.guards
    ensures id in s.db.holds
    ensures s.db.guards[HoldKey(id)].hash == ReqHash(Text(row.table), row.amount) ==>
      s.db.holds[id].amount == row.amount && s.db.holds[id].table == row.table
    ensures s.db.guards[HoldKey(id)].hash != ReqHash(Text(row.table), row.amount) ==> HoldTaken(s, id, row)
  {
    ReachableInv(env, s);
    assert HoldPrint(s, id);
  }

  /** Reserves money and records the hold in one commit. */
  method CreateHold(c: Call, id: HoldId, row: HoldRow) returns (r: HoldResult, o: Outcome)
    requires c.Valid() && id.user == row.user && row.status == Held && OwnsWallet(c.sys, row.user, Real, row.wallet)
    modifies c`sys, c`did, c`tried, c`faults
    ensures c.Valid() && Later(old(c.sys), c.sys) && Acted(PlaceHold(id, row), old(c.did), c.did, o)
    ensures (r.Resolved? <==> o.Done? || o.Replayed?) && (r.HoldConflict? <==> o.Conflict?)
    ensures r.Resolved? ==> Reservation(c.sys, id)
    ensures o.Done? ==> r == Resolved(Some(row), false) && EntryOf(c.sys, HoldKey(id)).amount == -(row.amount as int)
    ensures o.Replayed? ==> r.replayed && (r.hold.Some? ==>
        KnowsHold(c.sys, id, r.hold.value) && r.hold.value.amount == row.amount && r.hold.value.table == row.table)
    ensures o.Conflict? ==> HoldTaken(c.sys, id, row)
    ensures c.faults >= old(c.faults)
    ensures c.faults == old(c.faults) ==> !o.Failed? && (o.Replayed? ==> r.hold.Some?)
    ensures c.faults == old(c.faults) && o.Insufficient? ==>
      && c.tried == old(c.tried) + [PlaceHold(id, row)] && HoldKey(id) !in c.sys.db.guards
      && Beaten(c.env, old(c.sys), c.sys, MutationOf(c.env, PlaceHold(id, row)))
  {
    hide Later, Reachable, OwnsWallet, KeptFor, MutationOf, Beaten, Known;
    PlaceHoldIs(c.env, id, row);
    HoldIsKnown(c.env, c.sys, id, row);
    o := Mutate(c, PlaceHold(id, row));
    match o
    case Done(_) => r := Resolved(Some(row), false);
    case Replayed(_) =>
      ghost var start := old(c.sys);
      r := ReadPlaced(c, id, row, start);
    case Conflict =>
      HoldUnderKey(c.env, c.sys, id, row);
      r := HoldConflict;
    case Insufficient => r := HoldFailed;
    case Failed => r := HoldFailed;
  }

  lemma HoldIsKnown(env: Env, s: State, id: HoldId, row: HoldRow)
    requires id.user == row.user && row.status == Held && OwnsWallet(s, row.user, Real, row.wallet)
    ensures Known(env, s, PlaceHold(id, row))
  {
  }

  /** The hold that was there, as a read without consistency may show it. */
  method ReadPlaced(c: Call, id: HoldId, row: HoldRow, ghost start: State) returns (r: HoldResult)
    requires c.Valid() && Later(start, c.sys) && Reservation(c.sys, id)
    requires c.sys.db.guards[HoldKey(id)].hash == ReqHash(Text(row.table), row.amount)
    modifies c`sys, c`faults
    ensures c.Valid() && Later(start, c.sys) && Reservation(c.sys, id) && c.faults >= old(c.faults)
    ensures r.Resolved? && r.replayed && (c.faults == old(c.faults) ==> r.hold.Some?)
    ensures r.hold.Some? ==> KnowsHold(c.sys, id, r.hold.value) && r.hold.value.amount == row.amount && r.hold.value.table == row.table
  {
    ghost var before := c.sys;
    c.Pause();
    LaterTrans(start, before, c.sys);
    HoldUnderKey(c.env, c.sys, id, row);
    var hold := c.GetHold(id);
    r := Resolved(hold, true);
  }

  lemma ReleasedForGood(env: Env, s: State, id: HoldId)
    requires Reachable(env, s) && ReleaseKey(id) in s.db.guards
    ensures id in s.db.holds && s.db.holds[id].status == Released
    ensures s.db.guards[ReleaseKey(id)].hash == ReqHash(HoldRef(id), s.db.holds[id].amount)
  {
    ReachableInv(env, s);
    assert ReleaseOk(s, id) && HoldOk(s, id) && ReleasePrint(s, id);
  }

  lemma ReleaseIs(env: Env, id: HoldId, row: HoldRow, target: WalletId)
    ensures var m := MutationOf(env, ReleaseHold(id, row, target));
            m.key == ReleaseKey(id) && m.hash == ReqHash(HoldRef(id), row.amount) && m.credit && m.wallet == target
  {
  }

  lemma ReleaseKnows(env: Env, s: State, id: HoldId, row: HoldRow, target: WalletId)
    requires Known(env, s, ReleaseHold(id, row, target))
    ensures KnowsHold(s, id, row)
  {
  }

  /** Why a release was refused that left its hold held: another entry came first on the wallet it credits. */
  lemma ReleaseLostRace(env: Env, start: State, s: State, id: HoldId, row: HoldRow, target: WalletId)
    requires Beaten(env, start, s, MutationOf(env, ReleaseHold(id, row, target))) && KnowsHold(start, id, row)
    requires Reachable(env, s) && id in s.db.holds && s.db.holds[id].status == Held
    ensures MovedOn(start, s, target)
  {
    hide Later, Reachable, MovedOn, MutationOf, SideConditions;
    ReleaseIs(env, id, row, target);
    if ReleaseKey(id) in s.db.guards {
      ReleasedForGood(env, s, id);
    }
    forall at | Within(env, start, at, s) ensures SideConditions(at.db, MutationOf(env, ReleaseHold(id, row, target))) {
      HeldBefore(start, at, s, id);
      ReleaseMayGo(env, at.db, id, row, target);
    }
  }

  lemma HeldBefore(start: State, at: State, s: State, id: HoldId)
    requires Later(start, at) && Later(at, s) && id in start.db.holds && id in s.db.holds && s.db.holds[id].status == Held
    ensures id in at.db.holds && at.db.holds[id].status == Held
  {
  }

  lemma ReleaseMayGo(env: Env, db: Db, id: HoldId, row: HoldRow, target: WalletId)
    requires id in db.holds && db.holds[id].status == Held
    ensures SideConditions(db, MutationOf(env, ReleaseHold(id, row, target)))
  {
  }

  /** A release that failed where no access did: it was sent, its hold is still held, and the wallet moved on. */
  ghost predicate ReleaseFailed(start: State, s: State, f: Flow, from: Log, to: Log)
    requires f.ReleaseHold?
  {
    to.tried == from.tried + [f] && f.id in s.db.holds && s.db.holds[f.id].status == Held && MovedOn(start, s, f.target)
  }

  /** Credits a hold back and releases it in one commit, to `target` even when the row names another wallet.
      Answered without an error, the hold is resolved: released by this commit, or by whoever came first. */
  method ReleaseHoldAtomic(c: Call, id: HoldId, row: HoldRow, target: WalletId) returns (r: HoldResult)
    requires c.Valid() && Known(c.env, c.sys, ReleaseHold(id, row, target))
    modifies c`sys, c`did, c`tried, c`faults
    ensures c.Valid() && Later(old(c.sys), c.sys) && !r.HoldConflict? && old(c.tried) <= c.tried
    ensures r.Resolved? ==> id in c.sys.db.holds && c.sys.db.holds[id].status != Held
    ensures r.Resolved? && !r.replayed ==> Posted(ReleaseHold(id, row, target), old(c.did), c.did, true)
    ensures r.Resolved? && r.replayed ==> c.did == old(c.did)
    ensures r.HoldFailed? ==> c.did == old(c.did) || Posted(ReleaseHold(id, row, target), old(c.did), c.did, false)
    ensures c.faults >= old(c.faults)
    ensures r.HoldFailed? && c.faults == old(c.faults) ==>
      ReleaseFailed(old(c.sys), c.sys, ReleaseHold(id, row, target), old(c.Record()), c.Record())
  {
    hide Later, Reachable, GuardOk, MutationOf, Known;
    ghost var start := c.sys;
    var f := ReleaseHold(id, row, target);
    ReleaseIs(c.env, id, row, target);
    ReleaseKnows(c.env, start, id, row, target);
    var replay := c.CheckReplay(ReleaseKey(id), ReqHash(HoldRef(id), row.amount));
    if replay.Mismatch? {
      ReleasedForGood(c.env, start, id); // a release keeps one fingerprint, so there is no mismatch
    }
    c.Pause();
    ghost var before := c.sys;
    match replay
    case ReadFailed => r := HoldFailed;
    case Mismatch => r := HoldConflict;
    case Prior(_) => r := ReadReleased(c, id, start);
    case Fresh =>
      KnownStays(c.env, start, before, f);
      r := ReleaseFresh(c, f);
      LaterTrans(start, before, c.sys);
      HistoryGrows(start, before, target);
  }

  method ReadReleased(c: Call, id: HoldId, ghost start: State) returns (r: HoldResult)
    requires c.Valid() && Reachable(c.env, start) && Later(start, c.sys) && ReleaseKey(id) in start.db.guards
    modifies c`faults
    ensures r.Resolved? && r.replayed && c.faults >= old(c.faults)
    ensures id in c.sys.db.holds && c.sys.db.holds[id].status != Held
  {
    ReleasedForGood(c.env, c.sys, id);
    var hold := c.GetHold(id);
    r := Resolved(hold, true);
  }

  method ReleaseFresh(c: Call, f: Flow) returns (r: HoldResult)
    requires c.Valid() && f.ReleaseHold? && Known(c.env, c.sys, f)
    modifies c`sys, c`did, c`tried, c`faults
    ensures c.Valid() && Later(old(c.sys), c.sys) && !r.HoldConflict? && old(c.tried) <= c.tried
    ensures r.Resolved? ==> f.id in c.sys.db.holds && c.sys.db.holds[f.id].status != Held
    ensures r.Resolved? && !r.replayed ==> Posted(f, old(c.did), c.did, true)
    ensures r.Resolved? && r.replayed ==> c.did == old(c.did)
    ensures r.HoldFailed? ==> c.did == old(c.did) || Posted(f, old(c.did), c.did, false)
    ensures c.faults >= old(c.faults)
    ensures r.HoldFailed? && c.faults == old(c.faults) ==> ReleaseFailed(old(c.sys), c.sys, f, old(c.Record()), c.Record())
  {
    hide Later, OwnsWallet, Reachable, MutationOf, Known, Beaten, MovedOn;
    ghost var start := c.sys;
    ReleaseIs(c.env, f.id, f.hold, f.target);
    ReleaseKnows(c.env, start, f.id, f.hold, f.target);
    var a, _ := Attempt(c, f);
    if a.Applied? {
      ReleasedForGood(c.env, c.sys, f.id);
      return Resolved(Some(f.hold.(status := Released)), false);
    }
    if a.NoAnswer? {
      return HoldFailed;
    }
    ghost var before := c.sys;
    HoldStays(start, before, f.id);
    r := ReleaseRefused(c, f.id, ReqHash(HoldRef(f.id), f.hold.amount));
    LaterTrans(start, before, c.sys);
    if r.HoldFailed? && c.faults == old(c.faults) {
      LaterRefl(start);
      BeatenWider(c.env, start, start, before, c.sys, MutationOf(c.env, f));
      ReleaseLostRace(c.env, start, c.sys, f.id, f.hold, f.target);
    }
  }

  lemma HoldStays(s: State, s': State, id: HoldId)
    requires Later(s, s') && id in s.db.holds
    ensures id in s'.db.holds
  {
  }

  /** After a refused release: a guard that is there after all, or a hold that is no longer held, means somebody else
      resolved it. */
  method ReleaseRefused(c: Call, id: HoldId, hash: ReqHash) returns (r: HoldResult)
    requires c.Valid() && id in c.sys.db.holds
    modifies c`sys, c`faults
    ensures c.faults >= old(c.faults)
    ensures r.HoldFailed? && c.faults == old(c.faults) ==> id in c.sys.db.holds && c.sys.db.holds[id].status == Held
    ensures c.Valid() && Later(old(c.sys), c.sys)
    ensures r.HoldFailed? || (r.Resolved? && r.replayed)
    ensures r.Resolved? ==> id in c.sys.db.holds && c.sys.db.holds[id].status != Held
  {
    ghost var start := c.sys;
    var replay := c.CheckReplay(ReleaseKey(id), hash);
    c.Pause();
    var hold := c.GetHold(id);
    if replay.Prior? {
      ReleasedForGood(c.env, c.sys, id);
      return Resolved(hold, true);
    }
    r := if hold.Some? && hold.value.status != Held then Resolved(hold, true) else HoldFailed;
  }
}
