/** The wallet as a concurrent system: the store, the payment rail, one clock, and every atomic
    action a call may take. Calls run with no lock. A call's local data are earlier reads; `Known`
    says what such reads still prove later, whatever other calls did in between, and it is all an
    action may rely on. */
module System {
  import opened Rows
  import opened Limits
  import opened Store

  type CallId = nat

  /** Ten minutes, in nanoseconds: how old a withdrawal must be before "unknown to the rail" is believed. */
  const PAYOUT_GRACE: Time := 600_000_000_000

  /** What the environment promises.
      - window: the rail accepts a payout only within this age of its withdrawal row;
      - latency: the longest time between the rail answering a query and the code reading its clock;
      - dayOf: the calendar;
      - exclusive: calls on one deposit never overlap;
      - freshReads: a deposit read sees what its own call and calls that have ended wrote;
      - sameDay: a withdrawal's counted day is the day of its creation time;
      - creditsSucceed: no reversal credit is reported as failed. */
  datatype Env = Env(window: nat, latency: nat, dayOf: Time -> Day, exclusive: bool, freshReads: bool, sameDay: bool,
    creditsSucceed: bool)

  /** A call on a deposit finds the row as the call before it left it, and nobody else touches it meanwhile. */
  predicate Alone(env: Env) { env.exclusive && env.freshReads }

  ghost predicate Calendar(env: Env) {
    forall t: Time, u: Time :: t <= u ==> env.dayOf(t) <= env.dayOf(u)
  }

  datatype PayoutStatus = PayoutProcessing | PayoutDone | PayoutFailed
  datatype Payout = Payout(status: PayoutStatus, acceptedAt: Time)

  /** A charge at the rail; once paid, the amount is final. */
  datatype Charge = Charge(amount: nat, paid: Option<nat>)

  datatype State = State(
    db: Store.Db,
    clock: Time,
    // the rail
    payouts: map<WithdrawalId, Payout>,
    charges: map<Txid, Charge>,
    refunded: set<Txid>,                        // refunds the rail accepted, one per key
    // requests ever sent to the rail
    payoutAsks: set<WithdrawalId>,
    chargeAsks: set<(Txid, nat)>,
    refundAsks: set<(Txid, nat)>,
    // who may still ask a payout, and who runs a deposit call
    payer: map<WithdrawalId, CallId>,
    holder: map<Txid, CallId>,
    // history
    hist: map<WalletId, seq<Entry>>,            // entries in commit order
    countedOn: map<Txid, Day>,                  // the day a deposit was counted on
    slotsReturned: set<WithdrawalId>,
    rejected: set<Txid>,                        // left pending for refund_pending
    refunding: set<Txid>)                       // ever in refund_pending

  // ---- what earlier reads prove ----

  ghost predicate OwnsWallet(s: State, user: UserId, kind: WalletType, wallet: WalletId) {
    Owner(user, kind) in s.db.markers && s.db.markers[Owner(user, kind)] == wallet && wallet in s.db.wallets
  }

  predicate SameDeposit(a: DepositRow, b: DepositRow) { a.(status := b.status) == b }

  predicate SameWithdrawal(a: WithdrawalRow, b: WithdrawalRow) { a.(status := b.status) == b }

  predicate SameHold(a: HoldRow, b: HoldRow) { a.(status := b.status) == b }

  ghost predicate KnowsDeposit(s: State, txid: Txid, row: DepositRow) {
    txid in s.db.deposits && SameDeposit(s.db.deposits[txid], row)
  }

  ghost predicate KnowsWithdrawal(s: State, wid: WithdrawalId, row: WithdrawalRow) {
    wid in s.db.withdrawals && SameWithdrawal(s.db.withdrawals[wid], row)
  }

  ghost predicate KnowsHold(s: State, id: HoldId, row: HoldRow) {
    id in s.db.holds && SameHold(s.db.holds[id], row)
  }

  /** Why a reversal was started: the rail's own refusal, or "unknown" asked at one time and believed
      at a later one, when the row was older than the grace. */
  datatype Evidence = RailFailed | UnknownAt(asked: Time, checked: Time)

  ghost predicate Proven(env: Env, s: State, wid: WithdrawalId, createdAt: Time, why: Evidence) {
    match why
    case RailFailed => wid in s.payouts && s.payouts[wid].status == PayoutFailed
    case UnknownAt(asked, checked) =>
      && asked <= checked <= s.clock
      && checked - asked <= env.latency
      && checked - createdAt >= PAYOUT_GRACE
      && (wid in s.payouts ==> s.payouts[wid].acceptedAt >= asked)
  }

  /** A user's counters as read, and the clock reading that followed. */
  ghost predicate CounterRead(env: Env, s: State, prev: Option<Counters>, now: Time) {
    now <= s.clock && (prev.Some? ==> prev.value.day <= env.dayOf(now))
  }

  function LimitsOf(db: Db, wallet: WalletId): DailyLimits
    requires wallet in db.wallets
  {
    EffectiveDailyLimits(Some(db.wallets[wallet]))
  }

  // ---- the money flows ----

  /** A balance change as a flow prepares it, before the wallet is read. */
  datatype Mutation = Mutation(
    key: IdemKey, hash: ReqHash, wallet: WalletId, amount: nat, credit: bool, kind: EntryKind,
    deposits: map<Txid, DepositOp>, withdrawals: map<WithdrawalId, WithdrawalOp>,
    holds: map<HoldId, HoldOp>, counters: map<UserId, CounterOp>)

  function Signed(m: Mutation): int {
    var amount: int := m.amount;
    if m.credit then amount else -amount
  }

  /** Only a few fields of a wallet row matter to a commit: the balance and the version read. */
  datatype Snapshot = Snapshot(balance: int, version: nat)

  function EntryFor(m: Mutation, read: Snapshot, sk: SortKey): Entry {
    Entry(m.wallet, sk, m.kind, Signed(m), read.balance + Signed(m), m.key)
  }

  /** The transaction of a balance change: balance, ledger entry, idempotency guard, lifecycle rows. */
  function TxFor(m: Mutation, read: Snapshot, sk: SortKey): Tx {
    Tx(map[m.wallet := Change(m.amount, m.credit, read.version)], map[],
       map[LedgerKey(m.wallet, sk) := EntryFor(m, read, sk)],
       map[m.key := Guard(m.wallet, sk, m.hash)],
       m.deposits, m.withdrawals, m.holds, m.counters)
  }

  /** The lifecycle rows alone: what a replay re-applies to repair older half-written rows. */
  function RepairTx(m: Mutation): Tx {
    EmptyTx.(deposits := m.deposits, withdrawals := m.withdrawals, holds := m.holds, counters := m.counters)
  }

  datatype Flow =
    | ConfirmDeposit(txid: Txid, deposit: DepositRow, prev: Option<Counters>, now: Time)
    | PayOut(wid: WithdrawalId, withdrawal: WithdrawalRow, prev: Option<Counters>, now: Time)
    | Reverse(wid: WithdrawalId, withdrawal: WithdrawalRow, why: Evidence)
    | DebitReal(user: UserId, idem: string, wallet: WalletId, amount: nat, reason: string)
    | PlaceHold(id: HoldId, hold: HoldRow)
    | ReleaseHold(id: HoldId, hold: HoldRow, target: WalletId)
    | Cashout(user: UserId, idem: string, wallet: WalletId, amount: nat, table: string, ids: seq<HoldId>)
    | MoveSandbox(credit: bool, user: UserId, idem: string, wallet: WalletId, amount: nat, reason: string)

  function AddDeposit(c: Counters, amount: nat): Counters { c.(depositSum := c.depositSum + amount) }

  function AddWithdrawal(c: Counters, amount: nat): Counters {
    c.(withdrawSum := c.withdrawSum + amount, withdrawCount := c.withdrawCount + 1)
  }

  /** The daily slot given back by a reversal. */
  function ReturnSlot(c: Counters, amount: nat): Counters {
    c.(withdrawCount := Max(0, c.withdrawCount - 1), withdrawSum := Max(0, c.withdrawSum - amount))
  }

  function SettleOps(user: UserId, table: string, ids: seq<HoldId>): map<HoldId, HoldOp> {
    map id | id in ids :: MoveOwnedHold(Held, Settled, user, table)
  }

  function MutationOf(env: Env, f: Flow): Mutation {
    match f
    case ConfirmDeposit(txid, row, prev, now) =>
      Mutation(DepositKey(txid), ReqHash(DepositRef(txid), row.amount), row.wallet, row.amount, true, EntryKind.Deposit,
               map[txid := MoveDepositRow(Pending, Confirmed)], map[], map[],
               map[row.user := CounterOp(prev, AddDeposit(CurrentFor(prev, env.dayOf(now)), row.amount))])
    case PayOut(wid, row, prev, now) =>
      Mutation(WithdrawKey(wid), ReqHash(Text(row.pixKey), row.amount), row.wallet, row.amount, false, EntryKind.Withdraw,
               map[], map[wid := PutWithdrawalRow(row)], map[],
               map[row.user := CounterOp(prev, AddWithdrawal(CurrentFor(prev, env.dayOf(now)), row.amount))])
    case Reverse(wid, row, _) =>
      Mutation(ReverseKey(wid), ReqHash(ReversalRef(wid), row.amount), row.wallet, row.amount, true, EntryKind.Reversal,
               map[], map[], map[], map[])
    case DebitReal(user, idem, wallet, amount, reason) =>
      Mutation(BillingKey(user, idem), ReqHash(Text(reason), amount), wallet, amount, false, EntryKind.BillingDebit,
               map[], map[], map[], map[])
    case PlaceHold(id, row) =>
      Mutation(HoldKey(id), ReqHash(Text(row.table), row.amount), row.wallet, row.amount, false, EntryKind.HoldDebit,
               map[], map[], map[id := PutHoldRow(row)], map[])
    case ReleaseHold(id, row, target) =>
      Mutation(ReleaseKey(id), ReqHash(HoldRef(id), row.amount), target, row.amount, true, EntryKind.HoldRelease,
               map[], map[], map[id := MoveHoldRow(Held, Released)], map[])
    case Cashout(user, idem, wallet, amount, table, ids) =>
      Mutation(CashoutKey(user, idem), ReqHash(CashoutRef(table, ids), amount), wallet, amount, true, EntryKind.CashoutCredit,
               map[], map[], SettleOps(user, table, ids), map[])
    case MoveSandbox(credit, user, idem, wallet, amount, reason) =>
      Mutation(SandboxKey(credit, user, idem), ReqHash(Text(reason), amount), wallet, amount, credit,
               if credit then EntryKind.SandboxCredit else EntryKind.SandboxDebit, map[], map[], map[], map[])
  }

  ghost predicate Distinct<T(!new)>(ids: seq<T>) {
    forall i, j :: 0 <= i < j < |ids| ==> ids[i] != ids[j]
  }

  ghost function Reserved(holds: map<HoldId, HoldRow>, ids: seq<HoldId>): nat
    requires forall id :: id in ids ==> id in holds
  {
    if ids == [] then 0 else Reserved(holds, ids[..|ids| - 1]) + holds[ids[|ids| - 1]].amount
  }

  /** What the code has read and checked before it commits a flow; all of it stays true once true. */
  ghost predicate Known(env: Env, s: State, f: Flow) {
    match f
    case ConfirmDeposit(txid, row, prev, now) =>
      && KnowsDeposit(s, txid, row)
      && txid in s.charges && s.charges[txid].paid == Some(row.amount)
      && row.wallet in s.db.wallets
      && CounterRead(env, s, prev, now)
      && CheckDailyDeposit(LimitsOf(s.db, row.wallet), CurrentFor(prev, env.dayOf(now)), row.amount, env.dayOf(now)).None?
    case PayOut(wid, row, prev, now) =>
      && wid.user == row.user && row.status == Processing
      && OwnsWallet(s, row.user, Real, row.wallet)
      && CounterRead(env, s, prev, now) && now <= row.createdAt <= s.clock
      && (env.sameDay ==> env.dayOf(now) == env.dayOf(row.createdAt))
      && CheckDailyWithdraw(LimitsOf(s.db, row.wallet), CurrentFor(prev, env.dayOf(now)), row.amount, env.dayOf(now)).None?
    case Reverse(wid, row, why) =>
      KnowsWithdrawal(s, wid, row) && Proven(env, s, wid, row.createdAt, why)
    case DebitReal(user, _, wallet, _, _) => OwnsWallet(s, user, Real, wallet)
    case PlaceHold(id, row) => id.user == row.user && row.status == Held && OwnsWallet(s, row.user, Real, row.wallet)
    case ReleaseHold(id, row, target) => KnowsHold(s, id, row) && OwnsWallet(s, row.user, Real, target)
    case Cashout(user, _, wallet, amount, table, ids) =>
      && OwnsWallet(s, user, Real, wallet)
      && Distinct(ids)
      && (forall id :: id in ids ==> id in s.db.holds && s.db.holds[id].user == user)
      && amount <= Reserved(s.db.holds, ids)
    case MoveSandbox(_, user, _, wallet, _, _) => OwnsWallet(s, user, Sandbox, wallet)
  }

  /** The balance after the first entries of a wallet. */
  function Total(h: seq<Entry>): int {
    if h == [] then 0 else Total(h[..|h| - 1]) + h[|h| - 1].amount
  }

  /** A wallet as read by some earlier consistent read. */
  ghost predicate WalletRead(s: State, wallet: WalletId, read: Snapshot) {
    wallet in s.hist && read.version <= |s.hist[wallet]| && read.balance == Total(s.hist[wallet][..read.version])
  }

  /** A timestamp taken after that read, from a clock that never gives the same reading twice. */
  ghost predicate StampedAfter(s: State, wallet: WalletId, read: Snapshot, ts: Time)
    requires WalletRead(s, wallet, read)
  {
    ts <= s.clock && forall i :: 0 <= i < read.version ==> s.hist[wallet][i].sk.ts < ts
  }

  // ---- the atomic actions ----

  datatype Action =
    | Tick(time: Time)
    | OpenWallet(user: UserId, kind: WalletType, id: WalletId, overrides: Overrides)
    | Post(flow: Flow, read: Snapshot, sk: SortKey, answered: bool)
    | PutDeposit(txid: Txid, deposit: DepositRow)
    | MoveDeposit(txid: Txid, from: DepositStatus, to: DepositStatus)
    | ClaimDeposit(txid: Txid)
    | DropDeposit(txid: Txid)
    | OpenCharge(txid: Txid, amount: nat)
    | PayCharge(txid: Txid, amount: nat)
    | AskRefund(txid: Txid, amount: nat)
    | AcceptRefund(txid: Txid)
    | AskPayout(wid: WithdrawalId)
    | AcceptPayout(wid: WithdrawalId)
    | SettlePayout(wid: WithdrawalId, done: bool)
    | SetWithdrawal(wid: WithdrawalId, status: WithdrawalStatus, why: Evidence)
    | MarkReversed(wid: WithdrawalId, slot: Option<Counters>)

  /** The moves the deposit code makes by compare-and-set. A move out of `Confirmed` is reached only when a call
      that took the row for pending loses its transition and re-reads the row as confirmed: a call that runs the
      deposit alone, on fresh reads, never gets there, which `DepositFlow` proves of the code, transition by
      transition. */
  predicate DepositMove(env: Env, from: DepositStatus, to: DepositStatus) {
    match to
    case RefundPending => from !in {RefundPending, Refunded} && (Alone(env) ==> from != Confirmed)
    case RefundFailed => from == RefundPending
    case Refunded => from == RefundPending
    case _ => false
  }

  ghost predicate MayRun(env: Env, c: CallId, s: State, txid: Txid) {
    env.exclusive ==> txid in s.holder && s.holder[txid] == c
  }

  ghost predicate CanOpenWallet(s: State, user: UserId, kind: WalletType, id: WalletId) {
    id !in s.db.wallets && Owner(user, kind) !in s.db.markers && forall h :: h in s.db.holds ==> s.db.holds[h].wallet != id
  }

  /** A wallet row and its marker, written together. */
  function AfterOpenWallet(s: State, user: UserId, kind: WalletType, id: WalletId, overrides: Overrides): State {
    s.(db := s.db.(wallets := s.db.wallets[id := Wallet(user, kind, 0, Some(0), overrides)],
                   markers := s.db.markers[Owner(user, kind) := id]),
       hist := s.hist[id := []])
  }

  function BalanceOp(m: Mutation, read: Snapshot): WalletOp { Change(m.amount, m.credit, read.version) }

  predicate SideConditions(db: Db, m: Mutation) {
    && (forall id :: id in m.deposits ==> DepositCond(db.deposits, id, m.deposits[id]))
    && (forall id :: id in m.withdrawals ==> WithdrawalCond(db.withdrawals, id, m.withdrawals[id]))
    && (forall id :: id in m.holds ==> HoldCond(db.holds, id, m.holds[id]))
    && (forall u :: u in m.counters ==> CounterCond(db.counters, u, m.counters[u]))
  }

  /** A commit goes through: the wallet read and the timestamp are sound, and every condition of the
      transaction holds. */
  ghost predicate Commits(s: State, m: Mutation, read: Snapshot, sk: SortKey) {
    && WalletRead(s, m.wallet, read) && StampedAfter(s, m.wallet, read, sk.ts)
    && WalletCond(s.db.wallets, m.wallet, BalanceOp(m, read))
    && LedgerKey(m.wallet, sk) !in s.db.ledger && m.key !in s.db.guards
    && SideConditions(s.db, m)
  }

  ghost predicate CanPost(env: Env, c: CallId, s: State, f: Flow, read: Snapshot, sk: SortKey) {
    && Known(env, s, f)
    && (f.ConfirmDeposit? ==> MayRun(env, c, s, f.txid))
    && Commits(s, MutationOf(env, f), read, sk)
  }

  function AfterCommit(s: State, m: Mutation, read: Snapshot, sk: SortKey): State
    requires Commits(s, m, read, sk)
  {
    s.(db := s.db.(
         wallets := s.db.wallets[m.wallet := WalletAfter(s.db.wallets, m.wallet, BalanceOp(m, read))],
         ledger := s.db.ledger[LedgerKey(m.wallet, sk) := EntryFor(m, read, sk)],
         guards := s.db.guards[m.key := Guard(m.wallet, sk, m.hash)],
         deposits := DepositsAfter(s.db.deposits, m.deposits),
         withdrawals := WithdrawalsAfter(s.db.withdrawals, m.withdrawals),
         holds := HoldsAfter(s.db.holds, m.holds),
         counters := CountersAfter(s.db.counters, m.counters)),
       hist := s.hist[m.wallet := s.hist[m.wallet] + [EntryFor(m, read, sk)]])
  }

  function AfterPost(env: Env, c: CallId, s: State, f: Flow, read: Snapshot, sk: SortKey, answered: bool): State
    requires Commits(s, MutationOf(env, f), read, sk)
  {
    AfterCommit(s, MutationOf(env, f), read, sk).(
      countedOn := if f.ConfirmDeposit? then s.countedOn[f.txid := env.dayOf(f.now)] else s.countedOn,
      payer := if f.PayOut? && answered then s.payer[f.wid := c] else s.payer)
  }

  ghost predicate CanPutDeposit(s: State, txid: Txid, row: DepositRow) {
    && txid !in s.db.deposits
    && row.status == Pending && txid.user == row.user && OwnsWallet(s, row.user, Real, row.wallet)
  }

  function AfterPutDeposit(s: State, txid: Txid, row: DepositRow): State {
    s.(db := s.db.(deposits := s.db.deposits[txid := row]))
  }

  ghost predicate CanMoveDeposit(env: Env, c: CallId, s: State, txid: Txid, from: DepositStatus, to: DepositStatus) {
    && MayRun(env, c, s, txid)
    && txid in s.db.deposits && s.db.deposits[txid].status == from
    && DepositMove(env, from, to)
    && (to == RefundPending ==> txid in s.charges && s.charges[txid].paid.Some?)
    && (to == Refunded ==> txid in s.refunded)
  }

  function AfterMoveDeposit(s: State, txid: Txid, from: DepositStatus, to: DepositStatus): State
    requires txid in s.db.deposits
  {
    s.(db := s.db.(deposits := s.db.deposits[txid := s.db.deposits[txid].(status := to)]),
       rejected := if from == Pending then s.rejected + {txid} else s.rejected,
       refunding := if to == RefundPending then s.refunding + {txid} else s.refunding)
  }

  function AfterOpenCharge(s: State, txid: Txid, amount: nat): State {
    s.(chargeAsks := s.chargeAsks + {(txid, amount)},
       charges := if txid in s.charges then s.charges else s.charges[txid := Charge(amount, None)])
  }

  ghost predicate CanAskRefund(env: Env, c: CallId, s: State, txid: Txid, amount: nat) {
    MayRun(env, c, s, txid) && txid in s.refunding && txid in s.charges && s.charges[txid].paid == Some(amount)
  }

  function AfterAskRefund(s: State, txid: Txid, amount: nat): State { s.(refundAsks := s.refundAsks + {(txid, amount)}) }

  ghost predicate CanAcceptPayout(env: Env, s: State, wid: WithdrawalId) {
    && wid in s.payoutAsks && wid !in s.payouts
    && wid in s.db.withdrawals && s.clock < s.db.withdrawals[wid].createdAt + env.window
  }

  ghost predicate CanSetWithdrawal(env: Env, s: State, wid: WithdrawalId, to: WithdrawalStatus, why: Evidence) {
    && wid in s.db.withdrawals
    && match to
       case Completed => wid in s.payouts && s.payouts[wid].status == PayoutDone
       case Reversed => ReverseKey(wid) in s.db.guards
       case ReversalFailed => !env.creditsSucceed && Proven(env, s, wid, s.db.withdrawals[wid].createdAt, why)
       case Processing => false
  }

  /** The reversed mark, with the daily slot given back when `slot` holds the counters that were read. */
  ghost predicate CanMarkReversed(env: Env, s: State, wid: WithdrawalId, slot: Option<Counters>) {
    && wid in s.db.withdrawals && ReverseKey(wid) in s.db.guards
    && s.db.withdrawals[wid].status != Reversed
    && (slot.Some? ==>
          && slot.value.day == env.dayOf(s.db.withdrawals[wid].createdAt)
          && s.db.withdrawals[wid].user in s.db.counters && s.db.counters[s.db.withdrawals[wid].user] == slot.value)
  }

  function AfterMarkReversed(s: State, wid: WithdrawalId, slot: Option<Counters>): State
    requires wid in s.db.withdrawals
  {
    var row := s.db.withdrawals[wid];
    s.(db := s.db.(withdrawals := s.db.withdrawals[wid := row.(status := Reversed)],
                   counters := if slot.Some? then s.db.counters[row.user := ReturnSlot(slot.value, row.amount)] else s.db.counters),
       slotsReturned := if slot.Some? then s.slotsReturned + {wid} else s.slotsReturned)
  }

  function AfterAskPayout(s: State, wid: WithdrawalId): State {
    s.(payoutAsks := s.payoutAsks + {wid}, payer := s.payer - {wid})
  }

  function AfterAcceptPayout(s: State, wid: WithdrawalId): State {
    s.(payouts := s.payouts[wid := Payout(PayoutProcessing, s.clock)])
  }

  function AfterSettlePayout(s: State, wid: WithdrawalId, done: bool): State
    requires wid in s.payouts
  {
    s.(payouts := s.payouts[wid := s.payouts[wid].(status := if done then PayoutDone else PayoutFailed)])
  }

  function AfterSetWithdrawal(s: State, wid: WithdrawalId, to: WithdrawalStatus): State
    requires wid in s.db.withdrawals
  {
    s.(db := s.db.(withdrawals := s.db.withdrawals[wid := s.db.withdrawals[wid].(status := to)]))
  }

  /** When call c may take action a in state s. */
  ghost predicate Enabled(env: Env, c: CallId, a: Action, s: State) {
    match a
    case Tick(time) => s.clock < time
    case OpenWallet(user, kind, id, _) => CanOpenWallet(s, user, kind, id)
    case Post(f, read, sk, _) => CanPost(env, c, s, f, read, sk)
    case PutDeposit(txid, row) => CanPutDeposit(s, txid, row)
    case MoveDeposit(txid, from, to) => CanMoveDeposit(env, c, s, txid, from, to)
    case ClaimDeposit(txid) => txid !in s.holder
    case DropDeposit(txid) => txid in s.holder && s.holder[txid] == c
    case OpenCharge(txid, amount) => txid in s.db.deposits && s.db.deposits[txid].amount == amount
    case PayCharge(txid, _) => txid in s.charges && s.charges[txid].paid.None?
    case AskRefund(txid, amount) => CanAskRefund(env, c, s, txid, amount)
    case AcceptRefund(txid) => exists amount: nat :: (txid, amount) in s.refundAsks
    case AskPayout(wid) => wid in s.payer && s.payer[wid] == c
    case AcceptPayout(wid) => CanAcceptPayout(env, s, wid)
    case SettlePayout(wid, _) => wid in s.payouts && s.payouts[wid].status == PayoutProcessing
    case SetWithdrawal(wid, to, why) => CanSetWithdrawal(env, s, wid, to, why)
    case MarkReversed(wid, slot) => CanMarkReversed(env, s, wid, slot)
  }

  /** The state after call c takes action a. */
  ghost function Effect(env: Env, c: CallId, a: Action, s: State): State
    requires Enabled(env, c, a, s)
  {
    match a
    case Tick(time) => s.(clock := time)
    case OpenWallet(user, kind, id, overrides) => AfterOpenWallet(s, user, kind, id, overrides)
    case Post(f, read, sk, answered) => AfterPost(env, c, s, f, read, sk, answered)
    case PutDeposit(txid, row) => AfterPutDeposit(s, txid, row)
    case MoveDeposit(txid, from, to) => AfterMoveDeposit(s, txid, from, to)
    case ClaimDeposit(txid) => s.(holder := s.holder[txid := c])
    case DropDeposit(txid) => s.(holder := s.holder - {txid})
    case OpenCharge(txid, amount) => AfterOpenCharge(s, txid, amount)
    case PayCharge(txid, amount) => s.(charges := s.charges[txid := s.charges[txid].(paid := Some(amount))])
    case AskRefund(txid, amount) => AfterAskRefund(s, txid, amount)
    case AcceptRefund(txid) => s.(refunded := s.refunded + {txid})
    case AskPayout(wid) => AfterAskPayout(s, wid)
    case AcceptPayout(wid) => AfterAcceptPayout(s, wid)
    case SettlePayout(wid, done) => AfterSettlePayout(s, wid, done)
    case SetWithdrawal(wid, to, _) => AfterSetWithdrawal(s, wid, to)
    case MarkReversed(wid, slot) => AfterMarkReversed(s, wid, slot)
  }

  /** Which tables each flow writes, and under which key. */
  lemma Footprint(env: Env, f: Flow)
    ensures var m := MutationOf(env, f);
            && (f.ConfirmDeposit? <==> m.key.DepositKey?) && (f.PayOut? <==> m.key.WithdrawKey?)
                && (f.Reverse? <==> m.key.ReverseKey?)
            && (f.DebitReal? <==> m.key.BillingKey?) && (f.PlaceHold? <==> m.key.HoldKey?)
                && (f.ReleaseHold? <==> m.key.ReleaseKey?)
            && (f.Cashout? <==> m.key.CashoutKey?) && (f.MoveSandbox? <==> m.key.SandboxKey?)
            && (!f.ConfirmDeposit? ==> m.deposits == map[])
            && (!f.PayOut? ==> m.withdrawals == map[])
            && (!f.PlaceHold? && !f.ReleaseHold? && !f.Cashout? ==> m.holds == map[])
            && (!f.ConfirmDeposit? && !f.PayOut? ==> m.counters == map[])
  {
  }

  /** The start: empty tables and rail, except holds opened on a game wallet that was later retired. */
  ghost predicate Init(s: State) {
    && s.db.wallets == map[] && s.db.markers == map[] && s.db.ledger == map[] && s.db.guards == map[]
    && s.db.deposits == map[] && s.db.withdrawals == map[] && s.db.counters == map[]
    && (forall id :: id in s.db.holds ==> s.db.holds[id].status == Held)
    && s.payouts == map[] && s.charges == map[] && s.refunded == {}
    && s.payoutAsks == {} && s.chargeAsks == {} && s.refundAsks == {}
    && s.payer == map[] && s.holder == map[]
    && s.hist == map[] && s.countedOn == map[] && s.slotsReturned == {} && s.rejected == {} && s.refunding == {}
  }

  datatype Event = Event(caller: CallId, action: Action)

  /** A run: any interleaving of any number of calls, a crashed call being one that takes no more actions. */
  ghost predicate IsRun(env: Env, events: seq<Event>, states: seq<State>) {
    && |states| == |events| + 1
    && Init(states[0])
    && forall i :: 0 <= i < |events| ==>
         Enabled(env, events[i].caller, events[i].action, states[i])
         && states[i + 1] == Effect(env, events[i].caller, events[i].action, states[i])
  }
}
