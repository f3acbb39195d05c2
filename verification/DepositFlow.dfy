/** The deposit flows: reserving and charging, and what a payment becomes. A payment is credited at most once,
    or sent back to its payer. */
module DepositFlow {
  import opened Rows
  import opened Limits
  import opened Store
  import opened System
  import opened Ledger
  import opened Withdrawals
  import opened Deposits
  import opened Growth
  import opened Fingerprints
  import opened Runs
  import opened Theorems
  import opened Calls
  import opened Repository

  /** Who paid, as the identity checks judge it; the checks themselves are arbitrary here. */
  datatype Payer = Erased | Unidentified | SomeoneElse | AccountOwner

  datatype Settlement = Unknown | Waiting | Credited | SentBack | Error

  ghost predicate SettlementOk(s: State, txid: Txid, r: Settlement) {
    && (r == Credited ==> DepositKey(txid) in s.db.guards)
    && (r == SentBack ==> txid in s.refunded)
  }

  lemma MayStillRun(env: Env, me: CallId, s: State, s': State, txid: Txid)
    requires MayRun(env, me, s, txid) && KeptFor(env, me, s, s')
    ensures MayRun(env, me, s', txid)
  {
  }

  ghost predicate InStatus(s: State, txid: Txid, status: DepositStatus) {
    txid in s.db.deposits && s.db.deposits[txid].status == status
  }

  /** A row read by a call that runs the deposit stays as read, and alone on fresh reads it is the row. */
  ghost predicate StillReads(env: Env, s: State, txid: Txid, status: DepositStatus) {
    HasBeen(s, txid, status) && (Alone(env) ==> InStatus(s, txid, status))
  }

  lemma StillReadsLater(env: Env, me: CallId, s: State, s': State, txid: Txid, status: DepositStatus)
    requires MayRun(env, me, s, txid) && StillReads(env, s, txid, status) && Rely(env, me, s, s')
    ensures MayRun(env, me, s', txid) && StillReads(env, s', txid, status)
    ensures env.exclusive && InStatus(s, txid, status) ==> InStatus(s', txid, status)
  {
    if env.exclusive {
      assert DepositKept(s, s', txid);
    }
  }

  function StatusOf(s: State, txid: Txid): Option<DepositStatus> {
    if txid in s.db.deposits then Some(s.db.deposits[txid].status) else None
  }

  lemma StatusStays(env: Env, me: CallId, s: State, s': State, txid: Txid)
    requires MayRun(env, me, s, txid) && KeptFor(env, me, s, s') && Later(s, s')
    ensures MayRun(env, me, s', txid)
    ensures env.exclusive && txid in s.db.deposits ==> StatusOf(s', txid) == StatusOf(s, txid)
  {
    if env.exclusive {
      assert DepositKept(s, s', txid);
    }
  }

  /** Reads the row again after a lost transition. */
  method Reread(c: Call, txid: Txid) returns (status: Option<DepositStatus>)
    requires c.Valid() && MayRun(c.env, c.me, c.sys, txid)
    modifies c`sys, c`faults
    ensures c.faults >= old(c.faults)
    ensures c.Valid() && Later(old(c.sys), c.sys) && MayRun(c.env, c.me, c.sys, txid)
    ensures status.Some? ==> StillReads(c.env, c.sys, txid, status.value)
    ensures c.faults == old(c.faults) ==> status == StatusOf(c.sys, txid)
    ensures c.env.exclusive && old(txid in c.sys.db.deposits) ==> StatusOf(c.sys, txid) == old(StatusOf(c.sys, txid))
  {
    ghost var start := c.sys;
    c.Pause();
    StatusStays(c.env, c.me, start, c.sys, txid);
    var row := c.GetDeposit(txid);
    status := if row.Some? then Some(row.value.status) else None;
  }

  /** After a refund the rail confirmed: the row is moved to refunded, unless another worker has finished it. */
  method MarkDepositRefunded(c: Call, txid: Txid) returns (r: Settlement)
    requires c.Valid() && MayRun(c.env, c.me, c.sys, txid) && txid in c.sys.refunded
    modifies c`sys, c`did, c`tried, c`faults
    ensures c.Valid() && Later(old(c.sys), c.sys) && MayRun(c.env, c.me, c.sys, txid)
    ensures SettlementOk(c.sys, txid, r) && c.faults >= old(c.faults) && old(c.did) <= c.did
    ensures c.faults == old(c.faults) && old(InStatus(c.sys, txid, RefundPending)) ==>
        c.did == old(c.did) + [MoveDeposit(txid, RefundPending, Refunded)] && InStatus(c.sys, txid, Refunded)
    ensures c.faults == old(c.faults) ==> r == if InStatus(c.sys, txid, Refunded) then SentBack else Error
  {
    hide Later, Reachable, Alone;
    ghost var start := c.sys;
    var a := c.TransitionDepositStatus(txid, RefundPending, Refunded);
    if a.Applied? {
      return SentBack;
    }
    if a.NoAnswer? {
      return Error;
    }
    ghost var before := c.sys;
    var status := Reread(c, txid);
    LaterTrans(start, before, c.sys);
    r := if status == Some(Refunded) then SentBack else Error;
  }

  /** After a refund request that was not confirmed: the failure is recorded unless another worker finished. */
  method MarkRefundFailed(c: Call, txid: Txid) returns (r: Settlement)
    requires c.Valid() && MayRun(c.env, c.me, c.sys, txid)
    modifies c`sys, c`did, c`tried, c`faults
    ensures c.Valid() && Later(old(c.sys), c.sys) && MayRun(c.env, c.me, c.sys, txid)
    ensures SettlementOk(c.sys, txid, r) && c.faults >= old(c.faults) && old(c.did) <= c.did
    ensures c.faults == old(c.faults) && old(InStatus(c.sys, txid, RefundPending)) ==> InStatus(c.sys, txid, RefundFailed)
    ensures c.faults == old(c.faults) ==> r == if InStatus(c.sys, txid, Refunded) then SentBack else Error
  {
    hide Later, Reachable, Alone;
    ghost var start := c.sys;
    var a := c.TransitionDepositStatus(txid, RefundPending, RefundFailed);
    if !a.Refused? {
      return Error;
    }
    ghost var before := c.sys;
    var status := Reread(c, txid);
    LaterTrans(start, before, c.sys);
    r := if status == Some(Refunded) then SentBack else Error;
  }

  /** The refund under its one stable key, and the local state that follows from its answer: refunded where the rail
      confirmed it, failed where it did not. */
  method Refund(c: Call, txid: Txid, amount: nat) returns (r: Settlement, ghost confirmed: bool)
    requires c.Valid() && CanAskRefund(c.env, c.me, c.sys, txid, amount)
    modifies c`sys, c`did, c`tried, c`faults
    ensures c.Valid() && Later(old(c.sys), c.sys) && MayRun(c.env, c.me, c.sys, txid)
    ensures SettlementOk(c.sys, txid, r) && c.faults >= old(c.faults) + (if confirmed then 0 else 1)
    ensures old(c.did) + [AskRefund(txid, amount)] <= c.did
    ensures c.env.exclusive && old(InStatus(c.sys, txid, RefundPending)) && c.faults == old(c.faults) + (if confirmed then 0 else 1) ==>
      if confirmed then r == SentBack && InStatus(c.sys, txid, Refunded) else r == Error && InStatus(c.sys, txid, RefundFailed)
  {
    hide Later, Reachable, Alone;
    ghost var start := c.sys;
    var ok := c.RefundDeposit(txid, amount);
    ghost var before := c.sys;
    StatusStays(c.env, c.me, start, before, txid);
    if ok {
      r := MarkDepositRefunded(c, txid);
    } else {
      r := MarkRefundFailed(c, txid);
    }
    confirmed := ok;
    LaterTrans(start, before, c.sys);
  }

  /** Resumes the compensation from whatever the row was read as. Where calls do not overlap and the row was read as
      it is, the payment is sent back unless an access failed. */
  method RefundMismatch(c: Call, txid: Txid, status: DepositStatus, amount: nat) returns (r: Settlement)
    requires c.Valid() && MayRun(c.env, c.me, c.sys, txid) && StillReads(c.env, c.sys, txid, status)
    requires status != Refunded && (Alone(c.env) ==> status != Confirmed)
    requires txid in c.sys.charges && c.sys.charges[txid].paid == Some(amount)
    modifies c`sys, c`did, c`tried, c`faults
    ensures c.Valid() && Later(old(c.sys), c.sys) && MayRun(c.env, c.me, c.sys, txid)
    ensures SettlementOk(c.sys, txid, r) && c.faults >= old(c.faults)
    ensures c.env.exclusive && old(InStatus(c.sys, txid, status)) && c.faults == old(c.faults) ==>
      r == SentBack && InStatus(c.sys, txid, Refunded)
  {
    hide Reachable;
    ghost var start := c.sys;
    c.Pause();
    ghost var before := c.sys;
    StillReadsLater(c.env, c.me, start, before, txid, status);
    if status != RefundPending {
      var answer := TakeForRefund(c, txid, status);
      LaterTrans(start, before, c.sys);
      if answer.Some? {
        return answer.value;
      }
      before := c.sys;
    }
    ghost var confirmed;
    r, confirmed := Refund(c, txid, amount);
    LaterTrans(start, before, c.sys);
  }

  /** What a call answers that finds the row where its transition did not expect it: nothing yet when it is in refund
      processing, for the refund goes on from there. */
  function AnswerFor(status: Option<DepositStatus>): Option<Settlement> {
    match status
    case None => Some(Unknown)
    case Some(RefundPending) => None
    case Some(Refunded) => Some(SentBack)
    case Some(_) => Some(Error)
  }

  /** Takes the row into refund processing, from whatever it was read as. No answer means it is there, taken by this
      call or by another one. */
  method TakeForRefund(c: Call, txid: Txid, status: DepositStatus) returns (r: Option<Settlement>)
    requires c.Valid() && MayRun(c.env, c.me, c.sys, txid) && StillReads(c.env, c.sys, txid, status)
    requires status != Refunded && status != RefundPending && (Alone(c.env) ==> status != Confirmed)
    requires txid in c.sys.charges && c.sys.charges[txid].paid.Some?
    modifies c`sys, c`did, c`tried, c`faults
    ensures c.Valid() && Later(old(c.sys), c.sys) && MayRun(c.env, c.me, c.sys, txid)
    ensures if r.Some? then SettlementOk(c.sys, txid, r.value) else txid in c.sys.refunding
    ensures c.faults >= old(c.faults) && (c.faults == old(c.faults) ==> r == AnswerFor(StatusOf(c.sys, txid)))
    ensures old(InStatus(c.sys, txid, status)) && c.faults == old(c.faults) ==>
        InStatus(c.sys, txid, RefundPending) && c.did == old(c.did) + [MoveDeposit(txid, status, RefundPending)]
  {
    hide Later, Reachable;
    ghost var start := c.sys;
    var a := c.TransitionDepositStatus(txid, status, RefundPending);
    if a.Applied? {
      return None;
    }
    if a.NoAnswer? {
      return Some(Error);
    }
    ghost var before := c.sys;
    r := TakenByAnother(c, txid);
    LaterTrans(start, before, c.sys);
  }

  method TakenByAnother(c: Call, txid: Txid) returns (r: Option<Settlement>)
    requires c.Valid() && MayRun(c.env, c.me, c.sys, txid)
    modifies c`sys, c`faults
    ensures c.Valid() && Later(old(c.sys), c.sys) && MayRun(c.env, c.me, c.sys, txid) && c.faults >= old(c.faults)
    ensures if r.Some? then SettlementOk(c.sys, txid, r.value) else txid in c.sys.refunding
    ensures c.faults == old(c.faults) ==> r == AnswerFor(StatusOf(c.sys, txid))
  {
    hide Later, Reachable;
    var current := Reread(c, txid);
    r := AnswerFor(current);
  }

  /** A charge is opened only for a reserved deposit. */
  lemma ChargedIsReserved(env: Env, s: State, txid: Txid)
    requires Reachable(env, s) && txid in s.charges
    ensures txid in s.db.deposits
  {
    ReachableInv(env, s);
  }

  /** A payment that must not be credited. A call that loses its rejection re-reads the row, whatever it has
      become, and goes on from there: even if it has become confirmed. Alone on fresh reads a call never loses it. */
  method RejectMismatch(c: Call, txid: Txid, amount: nat) returns (r: Settlement)
    requires c.Valid() && MayRun(c.env, c.me, c.sys, txid) && StillReads(c.env, c.sys, txid, Pending)
    requires txid in c.sys.charges && c.sys.charges[txid].paid == Some(amount)
    modifies c`sys, c`did, c`tried, c`faults
    ensures c.Valid() && Later(old(c.sys), c.sys) && MayRun(c.env, c.me, c.sys, txid)
    ensures SettlementOk(c.sys, txid, r) && c.faults >= old(c.faults)
    ensures c.env.exclusive && c.faults == old(c.faults) ==> r == SentBack && InStatus(c.sys, txid, Refunded)
  {
    hide Later, Reachable;
    ghost var start := c.sys;
    var a := c.TransitionDepositStatus(txid, Pending, RefundPending);
    ghost var before := c.sys;
    if a.NoAnswer? {
      return Error;
    }
    PaymentStays(start, before, txid, amount);
    if a.Refused? {
      r := AfterLostRejection(c, txid, amount);
    } else {
      r := RefundMismatch(c, txid, RefundPending, amount);
    }
    LaterTrans(start, before, c.sys);
  }

  lemma PaymentStays(s: State, s': State, txid: Txid, amount: nat)
    requires Later(s, s') && txid in s.charges && s.charges[txid].paid == Some(amount)
    ensures txid in s'.charges && s'.charges[txid].paid == Some(amount)
  {
  }

  method AfterLostRejection(c: Call, txid: Txid, amount: nat) returns (r: Settlement)
    requires c.Valid() && MayRun(c.env, c.me, c.sys, txid) && !Alone(c.env)
    requires txid in c.sys.charges && c.sys.charges[txid].paid == Some(amount)
    modifies c`sys, c`did, c`tried, c`faults
    ensures c.Valid() && Later(old(c.sys), c.sys) && MayRun(c.env, c.me, c.sys, txid)
    ensures SettlementOk(c.sys, txid, r) && c.faults >= old(c.faults)
    ensures c.env.exclusive && c.faults == old(c.faults) ==> r == SentBack && InStatus(c.sys, txid, Refunded)
  {
    hide Later, Reachable;
    ghost var start := c.sys;
    ChargedIsReserved(c.env, start, txid);
    var current := Reread(c, txid);
    ghost var before := c.sys;
    if current.None? {
      return Unknown;
    }
    if current.value == Refunded {
      return SentBack;
    }
    PaymentStays(start, before, txid, amount);
    r := RefundMismatch(c, txid, current.value, amount);
    LaterTrans(start, before, c.sys);
  }

  // ---- confirming ----

  lemma ReadyToCredit(env: Env, s: State, txid: Txid, row: DepositRow, realw: Wallet, prev: Option<Counters>, now: Time)
    requires Reachable(env, s) && KnowsDeposit(s, txid, row) && txid in s.charges && s.charges[txid].paid == Some(row.amount)
    requires row.wallet in s.db.wallets && realw.overrides == s.db.wallets[row.wallet].overrides
    requires now <= s.clock && (prev.Some? ==> prev.value.day <= env.dayOf(now))
    requires CheckDailyDeposit(EffectiveDailyLimits(Some(realw)), CurrentFor(prev, env.dayOf(now)), row.amount, env.dayOf(now)).None?
    ensures Known(env, s, ConfirmDeposit(txid, row, prev, now))
  {
  }

  lemma DepositHasWallet(env: Env, s: State, txid: Txid, row: DepositRow)
    requires Reachable(env, s) && KnowsDeposit(s, txid, row)
    ensures row.wallet in s.db.wallets
  {
    ReachableInv(env, s);
    assert DepositOk(s, txid);
  }

  /** The deposits stored for the day of a clock reading leave no room for the amount under the wallet's daily cap. */
  ghost predicate CapIsFull(env: Env, at: State, now: Time, user: UserId, w: WalletId, amount: int)
    requires w in at.db.wallets
  {
    UsedOn(at, user, env.dayOf(now)).depositSum + amount > EffectiveDailyLimits(Some(at.db.wallets[w])).depositCap
  }

  /** At some moment, and a clock reading not before it, the cap was full, or was not. */
  ghost predicate CapWas(env: Env, start: State, s: State, user: UserId, w: WalletId, amount: int, full: bool) {
    exists at, now: Time :: Within(env, start, at, s) && at.clock <= now <= s.clock && w in at.db.wallets
                            && CapIsFull(env, at, now, user, w, amount) == full
  }

  lemma CapWider(env: Env, start: State, from: State, to: State, s: State, user: UserId, w: WalletId, amount: int, full: bool)
    requires CapWas(env, from, to, user, w, amount, full) && Later(start, from) && Later(to, s)
    ensures CapWas(env, start, s, user, w, amount, full)
  {
    hide Reachable, CapIsFull;
    var at, now: Time :| Within(env, from, at, to) && at.clock <= now <= to.clock && w in at.db.wallets
                         && CapIsFull(env, at, now, user, w, amount) == full;
    WithinWider(env, start, from, at, to, s);
  }

  /** The daily check, against the counters and limits as read, says whether the cap was full when the counters were
      read. */
  lemma CapJudged(env: Env, start: State, at: State, s: State, user: UserId, w: WalletId, realw: Wallet, prev: Option<Counters>,
      now: Time, amount: int)
    requires Within(env, start, at, s) && at.clock <= now <= s.clock
    requires w in at.db.wallets && realw.overrides == at.db.wallets[w].overrides
    requires prev == if user in at.db.counters then Some(at.db.counters[user]) else None
    ensures CapWas(env, start, s, user, w, amount,
                   CheckDailyDeposit(EffectiveDailyLimits(Some(realw)), CurrentFor(prev, env.dayOf(now)), amount, env.dayOf(now)).Some?)
  {
    hide Within;
    assert CapIsFull(env, at, now, user, w, amount)
      == CheckDailyDeposit(EffectiveDailyLimits(Some(realw)), CurrentFor(prev, env.dayOf(now)), amount, env.dayOf(now)).Some?;
  }

  /** The credit of this deposit was sent and refused, and has not committed. */
  ghost predicate CreditRefused(env: Env, start: State, s: State, txid: Txid, row: DepositRow, from: Log, to: Log) {
    && DepositKey(txid) !in s.db.guards
    && exists f :: SentInVain(env, start, s, f, txid, row, from, to)
  }

  ghost predicate SentInVain(env: Env, start: State, s: State, f: Flow, txid: Txid, row: DepositRow, from: Log, to: Log) {
    f.ConfirmDeposit? && f.txid == txid && f.deposit == row && to.tried == from.tried + [f] && Beaten(env, start, s, MutationOf(env, f))
  }

  lemma CreditRefusedWider(env: Env, start: State, asked: State, s: State, txid: Txid, row: DepositRow, from: Log, to: Log)
    requires CreditRefused(env, asked, s, txid, row, from, to) && Later(start, asked) && Later(asked, s)
    requires Reachable(env, start) && Reachable(env, asked)
    ensures CreditRefused(env, start, s, txid, row, from, to)
  {
    hide Later, Reachable, MutationOf, Beaten;
    var f :| SentInVain(env, asked, s, f, txid, row, from, to);
    LaterRefl(s);
    BeatenWider(env, start, asked, s, s, MutationOf(env, f));
    assert SentInVain(env, start, s, f, txid, row, from, to);
  }

  /** What becomes of a payment that passed every check of its payer: sent back only when the day's cap was full,
      credited when it was not, and left for a later wake-up only when the credit was sent and refused. */
  ghost predicate Judged(env: Env, start: State, s: State, txid: Txid, row: DepositRow, r: Settlement, from: Log, to: Log) {
    match r
    case SentBack => CapWas(env, start, s, row.user, row.wallet, row.amount, true) && InStatus(s, txid, Refunded)
    case Credited => CapWas(env, start, s, row.user, row.wallet, row.amount, false)
    case Error => CreditRefused(env, start, s, txid, row, from, to)
    case _ => false
  }

  lemma JudgedWider(env: Env, start: State, asked: State, s: State, txid: Txid, row: DepositRow, r: Settlement, from: Log, to: Log)
    requires Judged(env, asked, s, txid, row, r, from, to) && Later(start, asked) && Later(asked, s)
    requires Reachable(env, start) && Reachable(env, asked)
    ensures Judged(env, start, s, txid, row, r, from, to)
  {
    hide Later, Reachable, CapWas, CreditRefused;
    LaterRefl(s);
    match r {
      case SentBack => CapWider(env, start, asked, s, s, row.user, row.wallet, row.amount, true);
      case Credited => CapWider(env, start, asked, s, s, row.user, row.wallet, row.amount, false);
      case Error => CreditRefusedWider(env, start, asked, s, txid, row, from, to);
    }
  }

  /** The binding cap check, and then either the credit with its status and counters in one commit, or the way
      back to the payer. The cap is judged by counters read once; a deposit that other deposits pushed over it is
      sent back. */
  method CreditOrReject(c: Call, txid: Txid, row: DepositRow) returns (r: Settlement)
    requires c.Valid() && MayRun(c.env, c.me, c.sys, txid) && KnowsDeposit(c.sys, txid, row)
        && StillReads(c.env, c.sys, txid, Pending)
    requires txid in c.sys.charges && c.sys.charges[txid].paid == Some(row.amount)
    modifies c`sys, c`did, c`tried, c`faults
    ensures c.Valid() && Later(old(c.sys), c.sys) && MayRun(c.env, c.me, c.sys, txid)
    ensures SettlementOk(c.sys, txid, r) && c.faults >= old(c.faults)
    ensures c.env.exclusive && old(InStatus(c.sys, txid, Pending)) && c.faults == old(c.faults) ==>
      Judged(c.env, old(c.sys), c.sys, txid, row, r, old(c.Record()), c.Record())
  {
    hide Later, Reachable, Judged, CapWas, Known, CheckDailyDeposit, Within;
    ghost var start := c.sys;
    DepositHasWallet(c.env, start, txid, row);
    var prev, realw, now := ReadForCap(c, row);
    ghost var before := c.sys;
    StillReadsLater(c.env, c.me, start, before, txid, Pending);
    StillKnown(start, before, txid, row);
    var day := c.env.dayOf(now);
    var breach := CheckDailyDeposit(EffectiveDailyLimits(Some(realw)), CurrentFor(prev, day), row.amount, day);
    if breach.Some? {
      r := RejectMismatch(c, txid, row.amount);
    } else {
      ReadyToCredit(c.env, before, txid, row, realw, prev, now);
      r := CreditNow(c, ConfirmDeposit(txid, row, prev, now));
    }
    LaterTrans(start, before, c.sys);
    if c.faults == old(c.faults) && c.env.exclusive {
      LaterRefl(start);
      CapWider(c.env, start, start, before, c.sys, row.user, row.wallet, row.amount, breach.Some?);
      JudgedSo(c.env, start, before, c.sys, txid, row, r, breach.Some?, old(c.Record()), c.Record());
    }
  }

  lemma StillKnown(s: State, s': State, txid: Txid, row: DepositRow)
    requires Later(s, s') && KnowsDeposit(s, txid, row) && txid in s.charges && s.charges[txid].paid == Some(row.amount)
    ensures KnowsDeposit(s', txid, row) && txid in s'.charges && s'.charges[txid].paid == Some(row.amount)
  {
  }

  lemma JudgedSo(env: Env, start: State, asked: State, s: State, txid: Txid, row: DepositRow, r: Settlement, full: bool, from: Log, to: Log)
    requires CapWas(env, start, s, row.user, row.wallet, row.amount, full)
    requires Later(start, asked) && Later(asked, s) && Reachable(env, start) && Reachable(env, asked)
    requires if full then r == SentBack && InStatus(s, txid, Refunded)
             else r == Credited || (r == Error && CreditRefused(env, asked, s, txid, row, from, to))
    ensures Judged(env, start, s, txid, row, r, from, to)
  {
    hide Later, Reachable, CapWas, CreditRefused;
    if r == Error {
      CreditRefusedWider(env, start, asked, s, txid, row, from, to);
    }
  }

  /** The counters, then the wallet's limits, then the clock. */
  method ReadForCap(c: Call, row: DepositRow) returns (prev: Option<Counters>, realw: Wallet, now: Time)
    requires c.Valid() && row.wallet in c.sys.db.wallets
    modifies c`sys
    ensures c.Valid() && Rely(c.env, c.me, old(c.sys), c.sys) && now == c.sys.clock
    ensures row.wallet in c.sys.db.wallets && realw.overrides == c.sys.db.wallets[row.wallet].overrides
    ensures prev.Some? ==> prev.value.day <= c.env.dayOf(now)
    ensures CapWas(c.env, old(c.sys), c.sys, row.user, row.wallet, row.amount,
                   CheckDailyDeposit(EffectiveDailyLimits(Some(realw)), CurrentFor(prev, c.env.dayOf(now)), row.amount, c.env.dayOf(now)).Some?)
  {
    hide Reachable, CheckDailyDeposit, CapWas;
    ghost var start := c.sys;
    prev := c.GetCounters(row.user);
    c.Pause();
    ghost var mid := c.sys;
    realw := c.GetWalletRow(row.wallet);
    c.Pause();
    now := c.Now();
    RelyTrans(c.env, c.me, start, mid, c.sys);
    LaterRefl(start);
    CapJudged(c.env, start, start, c.sys, row.user, row.wallet, realw, prev, now, row.amount);
  }

  method CreditNow(c: Call, f: Flow) returns (r: Settlement)
    requires c.Valid() && f.ConfirmDeposit? && Known(c.env, c.sys, f) && MayRun(c.env, c.me, c.sys, f.txid)
    modifies c`sys, c`did, c`tried, c`faults
    ensures c.Valid() && Later(old(c.sys), c.sys) && MayRun(c.env, c.me, c.sys, f.txid)
    ensures SettlementOk(c.sys, f.txid, r) && c.faults >= old(c.faults)
    ensures r == Credited || r == Error
    ensures c.faults == old(c.faults) && r == Error ==>
        CreditRefused(c.env, old(c.sys), c.sys, f.txid, f.deposit, old(c.Record()), c.Record())
  {
    hide Later, Reachable, Known, Beaten, MutationOf;
    ghost var start := c.sys;
    KeyOf(c.env, f);
    ConfirmCredits(c.env, f);
    KnowsItsDeposit(c.env, start, f);
    var o := Mutate(c, f);
    r := if o.Done? || o.Replayed? then Credited else Error;
    NoConflict(c.env, start, c.sys, f, o);
    if c.faults == old(c.faults) && r == Error {
      assert SentInVain(c.env, start, c.sys, f, f.txid, f.deposit, old(c.Record()), c.Record());
    }
  }

  lemma ConfirmCredits(env: Env, f: Flow)
    requires f.ConfirmDeposit?
    ensures MutationOf(env, f).credit && MutationOf(env, f).hash == ReqHash(DepositRef(f.txid), f.deposit.amount)
  {
  }

  lemma KnowsItsDeposit(env: Env, s: State, f: Flow)
    requires f.ConfirmDeposit? && Known(env, s, f)
    ensures KnowsDeposit(s, f.txid, f.deposit)
  {
  }

  /** A deposit is credited under one fingerprint only, that of its row. */
  lemma NoConflict(env: Env, s: State, s': State, f: Flow, o: Outcome)
    requires f.ConfirmDeposit? && KnowsDeposit(s, f.txid, f.deposit) && Later(s, s') && Reachable(env, s')
    requires Reported(s', MutationOf(env, f), o)
    ensures !o.Conflict?
  {
    ReachableInv(env, s');
    assert DepositPrint(s', f.txid);
  }

  /** What a wake-up decides about a row it alone runs, where no access failed: a payment by anyone but the account
      owner, or of another amount, goes back; so does every row already on its way back; the owner's payment of the
      expected amount is credited unless the day's cap is full; anything else waits, with nothing done. */
  ghost predicate DecidedFor(env: Env, start: State, s: State, txid: Txid, dep: DepositRow, paid: Option<nat>, who: Payer, r: Settlement,
      from: Log, to: Log)
  {
    match dep.status
    case Confirmed => r == Credited && to.did == from.did
    case RefundPending => r == SentBack && InStatus(s, txid, Refunded)
    case RefundFailed => r == SentBack && InStatus(s, txid, Refunded)
    case Refunded => r == SentBack && to.did == from.did
    case Pending =>
      if paid.None? then r == Waiting && to.did == from.did
      else if who == Unidentified then r == Error && to.did == from.did
      else if who != AccountOwner || paid.value != dep.amount then r == SentBack && InStatus(s, txid, Refunded)
      else Judged(env, start, s, txid, dep, r, from, to)
    case _ => r == Unknown && to.did == from.did
  }

  lemma DecidedWider(env: Env, start: State, asked: State, s: State, txid: Txid, dep: DepositRow, paid: Option<nat>, who: Payer,
      r: Settlement, from: Log, to: Log)
    requires DecidedFor(env, asked, s, txid, dep, paid, who, r, from, to) && Later(start, asked) && Later(asked, s)
    requires Reachable(env, start) && Reachable(env, asked)
    ensures DecidedFor(env, start, s, txid, dep, paid, who, r, from, to)
  {
    hide Later, Reachable, Judged;
    if dep.status == Pending && paid.Some? && who == AccountOwner && paid.value == dep.amount {
      JudgedWider(env, start, asked, s, txid, dep, r, from, to);
    }
  }

  /** The rail's answer about the charge, as it was at some moment of the call: not unpaid if it was paid before. */
  ghost predicate PaidAsAsked(start: State, s: State, txid: Txid, paid: Option<nat>)
    requires txid in s.charges
  {
    if paid.Some? then s.charges[txid].paid == paid else txid in start.charges ==> start.charges[txid].paid.None?
  }

  ghost predicate Decided(env: Env, start: State, s: State, txid: Txid, who: Payer, r: Settlement, from: Log, to: Log) {
    if txid !in start.db.deposits then r == Unknown && to.did == from.did
    else if txid !in s.charges then r == Error && to.did == from.did
    else exists paid: Option<nat> :: PaidAsAsked(start, s, txid, paid)
                                     && DecidedFor(env, start, s, txid, start.db.deposits[txid], paid, who, r, from, to)
  }

  /** What a wake-up for a deposit does. It trusts only the rail's own answer about the charge. */
  method ConfirmOne(c: Call, txid: Txid, who: Payer) returns (r: Settlement)
    requires c.Valid() && MayRun(c.env, c.me, c.sys, txid)
    modifies c`sys, c`did, c`tried, c`faults
    ensures c.Valid() && Later(old(c.sys), c.sys) && MayRun(c.env, c.me, c.sys, txid)
    ensures SettlementOk(c.sys, txid, r) && c.faults >= old(c.faults)
    ensures c.env.exclusive && c.faults == old(c.faults) ==>
      Decided(c.env, old(c.sys), c.sys, txid, who, r, old(c.Record()), c.Record())
  {
    hide Later, Reachable, DecidedFor, PaidAsAsked;
    LaterRefl(c.sys);
    ghost var start := c.sys;
    var dep := c.GetDeposit(txid);
    if dep.None? {
      return Unknown;
    }
    c.Pause();
    ghost var before := c.sys;
    StillReadsLater(c.env, c.me, start, before, txid, dep.value.status);
    RowStays(start, before, txid, dep.value);
    var charge := c.QueryDeposit(txid);
    if charge.None? {
      return Error;
    }
    r := Settle(c, txid, dep.value, charge.value.paid, who);
    LaterTrans(start, before, c.sys);
    if c.env.exclusive && c.faults == old(c.faults) {
      DecidedWider(c.env, start, before, c.sys, txid, dep.value, charge.value.paid, who, r, old(c.Record()), c.Record());
      AnswerStays(start, before, c.sys, txid, charge.value.paid);
    }
  }

  lemma RowStays(s: State, s': State, txid: Txid, row: DepositRow)
    requires Later(s, s') && KnowsDeposit(s, txid, row)
    ensures KnowsDeposit(s', txid, row)
  {
  }

  lemma AnswerStays(start: State, asked: State, s: State, txid: Txid, paid: Option<nat>)
    requires Later(start, asked) && Later(asked, s) && txid in asked.charges && paid == asked.charges[txid].paid
    ensures txid in s.charges && PaidAsAsked(start, s, txid, paid)
  {
  }

  /** A row in refund processing was paid. */
  lemma RefundingWasPaid(env: Env, s: State, txid: Txid)
    requires Reachable(env, s) && txid in s.refunding
    ensures txid in s.charges && s.charges[txid].paid.Some?
  {
    ReachableInv(env, s);
  }

  method Settle(c: Call, txid: Txid, dep: DepositRow, paid: Option<nat>, who: Payer) returns (r: Settlement)
    requires c.Valid() && MayRun(c.env, c.me, c.sys, txid) && KnowsDeposit(c.sys, txid, dep)
        && StillReads(c.env, c.sys, txid, dep.status)
    requires txid in c.sys.charges && paid == c.sys.charges[txid].paid
    modifies c`sys, c`did, c`tried, c`faults
    ensures c.Valid() && Later(old(c.sys), c.sys) && MayRun(c.env, c.me, c.sys, txid)
    ensures SettlementOk(c.sys, txid, r) && c.faults >= old(c.faults)
    ensures c.env.exclusive && old(InStatus(c.sys, txid, dep.status)) && c.faults == old(c.faults) ==>
      DecidedFor(c.env, old(c.sys), c.sys, txid, dep, paid, who, r, old(c.Record()), c.Record())
  {
    hide Later, Reachable, Judged;
    LaterRefl(c.sys);
    match dep.status
    case Confirmed => r := Credited;    // a rail that reports refunds would be looked at here
    case Refunded => r := SentBack;
    case Expired => r := Unknown;
    case RejectedCpf => r := Unknown;   // a legacy status no run from an empty store reaches
    case RefundPending =>
      RefundingWasPaid(c.env, c.sys, txid);
      r := RefundMismatch(c, txid, dep.status, paid.value);
    case RefundFailed =>
      RefundingWasPaid(c.env, c.sys, txid);
      r := RefundMismatch(c, txid, dep.status, paid.value);
    case Pending =>
      if paid.None? {
        return Waiting;
      }
      if who == Unidentified {
        return Error;
      }
      if who != AccountOwner || paid.value != dep.amount {
        r := RejectMismatch(c, txid, paid.value);
      } else {
        r := CreditOrReject(c, txid, dep);
      }
  }

  // ---- initiating ----

  datatype Opening = KycMissing | OutOfRange | IdemConflict | OverCap(breach: Breach) | Unopened | Opened(row: DepositRow, charge: Charge)

  /** An opened deposit is the reserved row, for the amount asked, and the rail's charge of that very amount. */
  ghost predicate OpeningOk(s: State, txid: Txid, amount: int, r: Opening) {
    r.Opened? ==>
      && KnowsDeposit(s, txid, r.row) && r.row.amount == amount
      && txid in s.charges && s.charges[txid].amount == amount && r.charge.amount == amount
  }

  /** The amount is within the inbound ceiling and the wallet's own range. */
  predicate InRange(s: State, w: WalletId, amount: int) {
    && w in s.db.wallets && amount <= MAX_INBOUND
    && MinDeposit(Some(s.db.wallets[w])) <= amount <= MaxDeposit(Some(s.db.wallets[w]))
  }

  lemma RangeStays(s: State, s': State, w: WalletId, amount: int)
    requires Later(s, s') && w in s.db.wallets
    ensures InRange(s', w, amount) <==> InRange(s, w, amount)
  {
  }

  /** Whether the call itself reserved a deposit since. */
  ghost predicate Reserved(did: seq<Action>, did': seq<Action>) {
    exists i :: |did| <= i < |did'| && did'[i].PutDeposit?
  }

  /** Why an opening was refused, and what one passed: out of range exactly when it is, over the cap only when the
      day's cap was full at some moment, and never reserved but when it was not. */
  ghost predicate OpeningFits(env: Env, start: State, s: State, user: UserId, w: WalletId, amount: int, r: Option<Opening>,
      did: seq<Action>, did': seq<Action>)
  {
    && (if r == Some(OutOfRange) then !InRange(s, w, amount) else InRange(s, w, amount))
    && (r.Some? && r.value.OverCap? ==> CapWas(env, start, s, user, w, amount, true))
    && (Reserved(did, did') ==> CapWas(env, start, s, user, w, amount, false))
  }

  lemma OpeningFitsWider(env: Env, start: State, from: State, s: State, user: UserId, w: WalletId, amount: int, r: Option<Opening>,
      did: seq<Action>, did': seq<Action>)
    requires OpeningFits(env, from, s, user, w, amount, r, did, did') && Later(start, from) && Later(from, s)
    ensures OpeningFits(env, start, s, user, w, amount, r, did, did')
  {
    hide Later, CapWas, InRange;
    LaterRefl(s);
    if r.Some? && r.value.OverCap? {
      CapWider(env, start, from, s, s, user, w, amount, true);
    }
    if Reserved(did, did') {
      CapWider(env, start, from, s, s, user, w, amount, false);
    }
  }

  lemma ChargeMatches(env: Env, s: State, txid: Txid)
    requires Reachable(env, s) && txid in s.charges
    ensures txid in s.db.deposits && s.charges[txid].amount == s.db.deposits[txid].amount
  {
    ReachableInv(env, s);
    assert DepositOk(s, txid);
  }

  /** The replay branch: the same key must mean the same request; a missing charge is opened for the reserved
      amount, which cannot open a second one. */
  method ResumeDeposit(c: Call, txid: Txid, user: UserId, amount: int, row: DepositRow) returns (r: Opening)
    requires c.Valid() && KnowsDeposit(c.sys, txid, row)
    modifies c`sys, c`did, c`tried, c`faults
    ensures c.Valid() && Later(old(c.sys), c.sys) && OpeningOk(c.sys, txid, amount, r)
    ensures r.IdemConflict? || r.Unopened? || r.Opened?
    ensures r.IdemConflict? <==> row.user != user || row.amount != amount
    ensures c.faults >= old(c.faults) && (c.faults == old(c.faults) ==> !r.Unopened?)
    ensures forall i :: |old(c.did)| <= i < |c.did| ==> c.did[i] == OpenCharge(txid, row.amount)
    ensures old(c.did) <= c.did
  {
    LaterRefl(c.sys);
    if row.user != user || row.amount != amount {
      return IdemConflict;
    }
    var charge := c.QueryDeposit(txid);
    if charge.None? {
      charge := c.OpenDeposit(txid, row.amount);
      if charge.None? {
        return Unopened;
      }
    }
    ChargeMatches(c.env, c.sys, txid);
    r := Opened(row, charge.value);
  }

  /** A read of the reservation. `misses` bounds how often a read without consistency may still miss a row that
      exists; with none left the read is consistent. */
  method FindDeposit(c: Call, txid: Txid, misses: nat) returns (r: Option<DepositRow>)
    requires c.Valid()
    modifies c`faults
    ensures c.faults >= old(c.faults)
    ensures r.Some? ==> KnowsDeposit(c.sys, txid, r.value)
    ensures misses == 0 && txid in c.sys.db.deposits ==> r.Some?
  {
    r := c.GetDeposit(txid);
    if r.None? && misses == 0 && txid in c.sys.db.deposits {
      r := Some(c.sys.db.deposits[txid]);
    }
  }

  lemma DepositHasOwner(env: Env, s: State, txid: Txid, row: DepositRow)
    requires Reachable(env, s) && KnowsDeposit(s, txid, row)
    ensures row.user == txid.user
  {
    ReachableInv(env, s);
    assert DepositOk(s, txid);
  }

  /** The checks and the reservation. No answer means the reservation was lost to someone else's; `missed` then
      says whether the row was already there when it was looked for. */
  method ReserveDeposit(c: Call, txid: Txid, w: WalletId, amount: int, misses: nat) returns (missed: bool, r: Option<Opening>)
    requires c.Valid() && OwnsWallet(c.sys, txid.user, Real, w)
    modifies c`sys, c`did, c`tried, c`faults
    ensures c.Valid() && Later(old(c.sys), c.sys) && old(c.did) <= c.did
    ensures r.Some? ==> OpeningOk(c.sys, txid, amount, r.value) && !r.value.KycMissing?
    ensures r.Some? && r.value.IdemConflict? ==> txid in c.sys.db.deposits && c.sys.db.deposits[txid].amount != amount
    ensures OpeningFits(c.env, old(c.sys), c.sys, txid.user, w, amount, r, old(c.did), c.did)
    ensures r.Some? && r.value.OverCap? ==> misses > 0 || old(txid !in c.sys.db.deposits)
    ensures c.faults >= old(c.faults) && (c.faults == old(c.faults) && r.Some? ==> !r.value.Unopened?)
    ensures r.None? ==> txid in c.sys.db.deposits && c.did == old(c.did)
    ensures r.None? ==> if missed then misses > 0 else old(txid !in c.sys.db.deposits)
  {
    hide Later, Reachable, CapWas;
    LaterRefl(c.sys);
    missed := false;
    ghost var start := c.sys;
    var realw := c.GetWalletRow(w);
    if amount > MAX_INBOUND || !ValidDepositAmount(amount, Some(realw)) {
      return missed, Some(OutOfRange);
    }
    c.Pause();
    ghost var before := c.sys;
    RangeStays(start, before, w, amount);
    var existing := FindDeposit(c, txid, misses);
    if existing.Some? {
      var answer := ResumeFound(c, txid, amount, existing.value);
      LaterTrans(start, before, c.sys);
      RangeStays(before, c.sys, w, amount);
      return missed, Some(answer);
    }
    missed := txid in c.sys.db.deposits;
    OwnershipStands(start, before, txid.user, w);
    StillReserved(start, before, txid);
    r := OpenNew(c, txid, w, realw, amount);
    LaterTrans(start, before, c.sys);
    RangeStays(before, c.sys, w, amount);
    OpeningFitsWider(c.env, start, before, c.sys, txid.user, w, amount, r, old(c.did), c.did);
  }

  lemma OwnershipStands(s: State, s': State, user: UserId, w: WalletId)
    requires OwnsWallet(s, user, Real, w) && Later(s, s')
    ensures OwnsWallet(s', user, Real, w) && s'.db.wallets[w].overrides == s.db.wallets[w].overrides
  {
  }

  lemma StillReserved(s: State, s': State, txid: Txid)
    requires Later(s, s')
    ensures txid in s.db.deposits ==> txid in s'.db.deposits
  {
  }

  method ResumeFound(c: Call, txid: Txid, amount: int, row: DepositRow) returns (r: Opening)
    requires c.Valid() && KnowsDeposit(c.sys, txid, row)
    modifies c`sys, c`did, c`tried, c`faults
    ensures c.Valid() && Later(old(c.sys), c.sys) && OpeningOk(c.sys, txid, amount, r) && old(c.did) <= c.did
    ensures r.IdemConflict? || r.Unopened? || r.Opened?
    ensures r.IdemConflict? ==> txid in c.sys.db.deposits && c.sys.db.deposits[txid].amount != amount
    ensures !Reserved(old(c.did), c.did)
    ensures c.faults >= old(c.faults) && (c.faults == old(c.faults) ==> !r.Unopened?)
  {
    ghost var start := c.sys;
    DepositHasOwner(c.env, start, txid, row);
    r := ResumeDeposit(c, txid, txid.user, amount, row);
  }

  method OpenNew(c: Call, txid: Txid, w: WalletId, realw: Wallet, amount: nat) returns (r: Option<Opening>)
    requires c.Valid() && OwnsWallet(c.sys, txid.user, Real, w) && realw.overrides == c.sys.db.wallets[w].overrides
    requires InRange(c.sys, w, amount)
    modifies c`sys, c`did, c`tried, c`faults
    ensures c.Valid() && Later(old(c.sys), c.sys) && old(c.did) <= c.did
    ensures r.Some? ==> OpeningOk(c.sys, txid, amount, r.value)
    ensures r.Some? ==> r.value.OverCap? || r.value.Unopened? || r.value.Opened?
    ensures OpeningFits(c.env, old(c.sys), c.sys, txid.user, w, amount, r, old(c.did), c.did)
    ensures c.faults >= old(c.faults) && (c.faults == old(c.faults) && r.Some? ==> !r.value.Unopened?)
    ensures r.None? ==> txid in c.sys.db.deposits && c.did == old(c.did)
  {
    hide Later, Reachable, CapWas, CheckDailyDeposit;
    ghost var start := c.sys;
    LaterRefl(start);
    var prev := c.GetCounters(txid.user);
    c.Pause();
    ghost var before := c.sys;
    var now := c.Now();
    var day := c.env.dayOf(now);
    CounterMoment(c.env, start, before, txid.user, w, realw, prev, amount);
    RangeStays(start, before, w, amount);
    var breach := CheckDailyDeposit(EffectiveDailyLimits(Some(realw)), CurrentFor(prev, day), amount, day);
    if breach.Some? {
      return Some(OverCap(breach.value));
    }
    OwnershipStands(start, before, txid.user, w);
    r := ReserveAndCharge(c, txid, DepositRow(w, txid.user, amount, Pending));
    LaterTrans(start, before, c.sys);
    RangeStays(before, c.sys, w, amount);
    CapWider(c.env, start, start, before, c.sys, txid.user, w, amount, false);
  }

  lemma CounterMoment(env: Env, at: State, s: State, user: UserId, w: WalletId, realw: Wallet, prev: Option<Counters>, amount: int)
    requires Reachable(env, at) && Later(at, s) && w in at.db.wallets && realw.overrides == at.db.wallets[w].overrides
    requires prev == if user in at.db.counters then Some(at.db.counters[user]) else None
    ensures CapWas(env, at, s, user, w, amount,
                   CheckDailyDeposit(EffectiveDailyLimits(Some(realw)), CurrentFor(prev, env.dayOf(s.clock)), amount, env.dayOf(s.clock)).Some?)
  {
    hide Reachable, CapWas, CheckDailyDeposit;
    LaterRefl(at);
    assert at.clock <= s.clock;
    CapJudged(env, at, at, s, user, w, realw, prev, s.clock, amount);
  }

  /** The reservation, and for the caller that won it the charge. */
  method ReserveAndCharge(c: Call, txid: Txid, row: DepositRow) returns (r: Option<Opening>)
    requires c.Valid() && row.status == Pending && txid.user == row.user && OwnsWallet(c.sys, row.user, Real, row.wallet)
    modifies c`sys, c`did, c`tried, c`faults
    ensures c.Valid() && Later(old(c.sys), c.sys) && old(c.did) <= c.did
    ensures r.Some? ==> OpeningOk(c.sys, txid, row.amount, r.value) && (r.value.Unopened? || r.value.Opened?)
    ensures c.faults >= old(c.faults) && (c.faults == old(c.faults) && r.Some? ==> !r.value.Unopened?)
    ensures r.None? ==> txid in c.sys.db.deposits && c.did == old(c.did)
  {
    hide Reachable;
    ghost var start := c.sys;
    var a := c.PutDepositIfAbsent(txid, row);
    if a.Refused? {
      return None;
    }
    if a.NoAnswer? {
      return Some(Unopened);
    }
    ghost var before := c.sys;
    var answer := ChargeReserved(c, txid, row);
    LaterTrans(start, before, c.sys);
    r := Some(answer);
  }

  method ChargeReserved(c: Call, txid: Txid, row: DepositRow) returns (r: Opening)
    requires c.Valid() && KnowsDeposit(c.sys, txid, row)
    modifies c`sys, c`did, c`tried, c`faults
    ensures c.Valid() && Later(old(c.sys), c.sys) && OpeningOk(c.sys, txid, row.amount, r)
    ensures (r.Unopened? || r.Opened?) && old(c.did) + [OpenCharge(txid, row.amount)] == c.did
    ensures c.faults == old(c.faults) + (if r.Unopened? then 1 else 0)
  {
    ghost var start := c.sys;
    c.Pause();
    ghost var before := c.sys;
    var charge := c.OpenDeposit(txid, row.amount);
    LaterTrans(start, before, c.sys);
    if charge.None? {
      return Unopened;
    }
    ChargeMatches(c.env, c.sys, txid);
    r := Opened(row, charge.value);
  }

  /** Reserves the deposit, then opens its charge. Losing the reservation to a concurrent identical request
      starts over at the replay branch: with consistent reads (`misses` zero) at most once. */
  method InitiateDeposit(c: Call, user: UserId, verified: bool, amount: int, idem: string,
      misses: nat) returns (r: Opening, depth: nat, ghost w: WalletId)
    requires c.Valid()
    modifies c`sys, c`did, c`tried, c`faults
    ensures c.Valid() && Later(old(c.sys), c.sys) && OpeningOk(c.sys, Txid(user, idem), amount, r) && old(c.did) <= c.did
    ensures depth <= misses + (if old(Txid(user, idem) in c.sys.db.deposits) then 0 else 1)
    ensures r.KycMissing? <==> !verified
    ensures !verified ==> c.did == old(c.did)
    ensures r.IdemConflict? ==> Txid(user, idem) in c.sys.db.deposits && c.sys.db.deposits[Txid(user, idem)].amount != amount
    ensures verified && (!r.Unopened? || Reserved(old(c.did), c.did)) ==>
      OwnsWallet(c.sys, user, Real, w) && OpeningFits(c.env, old(c.sys), c.sys, user, w, amount, Some(r), old(c.did), c.did)
    ensures r.OverCap? ==> misses > 0 || old(Txid(user, idem) !in c.sys.db.deposits)
    ensures c.faults >= old(c.faults) && (c.faults == old(c.faults) ==> !r.Unopened?)
    decreases misses, Txid(user, idem) !in c.sys.db.deposits
  {
    hide Later, Reachable, CapWas, InRange, OpeningFits;
    LaterRefl(c.sys);
    ghost var start, did := c.sys, c.did;
    var txid := Txid(user, idem);
    w := "";
    if !verified {
      return KycMissing, 0, w;
    }
    var found := EnsureWallet(c, user, Real);
    if found.None? {
      return Unopened, 0, w;
    }
    w := found.value;
    ghost var before, ready := c.sys, c.did;
    StillReserved(start, before, txid);
    var missed, answer := ReserveDeposit(c, txid, found.value, amount, misses);
    LaterTrans(start, before, c.sys);
    OwnershipStands(before, c.sys, user, w);
    OpeningFitsWider(c.env, start, before, c.sys, user, w, amount, answer, ready, c.did);
    OpeningFitsAll(c.env, start, c.sys, user, w, amount, answer, did, ready, c.did);
    if answer.Some? {
      return answer.value, 0, w;
    }
    before, ready := c.sys, c.did;
    r, depth, w := InitiateDeposit(c, user, verified, amount, idem, if missed then misses - 1 else misses);
    depth := depth + 1;
    LaterTrans(start, before, c.sys);
    if !r.Unopened? || Reserved(ready, c.did) {
      OpeningFitsWider(c.env, start, before, c.sys, user, w, amount, Some(r), ready, c.did);
      OpeningFitsAll(c.env, start, c.sys, user, w, amount, Some(r), did, ready, c.did);
    }
    OpenedOnly(did, ready, c.did);
  }

  /** Opening a wallet reserves nothing. */
  lemma OpenedOnly(did: seq<Action>, ready: seq<Action>, did': seq<Action>)
    requires did <= ready <= did' && forall i :: |did| <= i < |ready| ==> !ready[i].PutDeposit?
    ensures Reserved(did, did') <==> Reserved(ready, did')
  {
  }

  lemma OpeningFitsAll(env: Env, start: State, s: State, user: UserId, w: WalletId, amount: int, r: Option<Opening>, did: seq<Action>,
      ready: seq<Action>, did': seq<Action>)
    requires OpeningFits(env, start, s, user, w, amount, r, ready, did')
    requires did <= ready <= did' && forall i :: |did| <= i < |ready| ==> !ready[i].PutDeposit?
    ensures OpeningFits(env, start, s, user, w, amount, r, did, did')
  {
    hide CapWas, InRange;
    OpenedOnly(did, ready, did');
  }
}
