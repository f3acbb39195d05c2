/** The tables and the conditional transaction over them: every condition is judged on the state
    before the transaction, then all of its writes apply or none does. A transaction names each row
    at most once (DynamoDB refuses a repeated row), so it is one map of row operations per table. */
module Store {
  import opened Rows

  datatype Owner = Owner(user: UserId, kind: WalletType)
  datatype LedgerKey = LedgerKey(wallet: WalletId, sk: SortKey)

  datatype Db = Db(
    wallets: map<WalletId, Wallet>,
    markers: map<Owner, WalletId>,
    ledger: map<LedgerKey, Entry>,
    guards: map<IdemKey, Guard>,
    deposits: map<Txid, DepositRow>,
    withdrawals: map<WithdrawalId, WithdrawalRow>,
    holds: map<HoldId, HoldRow>,
    counters: map<UserId, Counters>)

  datatype WalletOp = NewWallet(row: Wallet) | Change(amount: nat, credit: bool, version: nat)
  datatype DepositOp = PutDepositRow(row: DepositRow) | MoveDepositRow(from: DepositStatus, to: DepositStatus)
  datatype WithdrawalOp = PutWithdrawalRow(row: WithdrawalRow) | ReverseRow
  datatype HoldOp =
    | PutHoldRow(row: HoldRow)
    | MoveHoldRow(from: HoldStatus, to: HoldStatus)
    | MoveOwnedHold(from: HoldStatus, to: HoldStatus, user: UserId, table: string)
  /** Compare-by-value replacement of a user's daily counters. */
  datatype CounterOp = CounterOp(prev: Option<Counters>, next: Counters)

  datatype Tx = Tx(
    wallets: map<WalletId, WalletOp>,
    markers: map<Owner, WalletId>,
    ledger: map<LedgerKey, Entry>,
    guards: map<IdemKey, Guard>,
    deposits: map<Txid, DepositOp>,
    withdrawals: map<WithdrawalId, WithdrawalOp>,
    holds: map<HoldId, HoldOp>,
    counters: map<UserId, CounterOp>)

  const EmptyTx := Tx(map[], map[], map[], map[], map[], map[], map[], map[])

  /** The balance update: the row exists, still has the version that was read (or never had one), and a
      debit finds at least its amount. */
  predicate WalletCond(t: map<WalletId, Wallet>, id: WalletId, op: WalletOp) {
    match op
    case NewWallet(_) => id !in t
    case Change(amount, credit, version) =>
      id in t && (t[id].version.None? || t[id].version.value == version) && (credit || t[id].balance >= amount)
  }

  function Bumped(version: Option<nat>): Option<nat> {
    Some((if version.Some? then version.value else 0) + 1)
  }

  function WalletAfter(t: map<WalletId, Wallet>, id: WalletId, op: WalletOp): Wallet
    requires WalletCond(t, id, op)
  {
    match op
    case NewWallet(row) => row
    case Change(amount, credit, _) =>
      t[id].(balance := if credit then t[id].balance + amount else t[id].balance - amount, version := Bumped(t[id].version))
  }

  predicate DepositCond(t: map<Txid, DepositRow>, id: Txid, op: DepositOp) {
    match op
    case PutDepositRow(_) => id !in t
    case MoveDepositRow(from, _) => id in t && t[id].status == from
  }

  function DepositAfter(t: map<Txid, DepositRow>, id: Txid, op: DepositOp): DepositRow
    requires DepositCond(t, id, op)
  {
    match op
    case PutDepositRow(row) => row
    case MoveDepositRow(_, to) => t[id].(status := to)
  }

  predicate WithdrawalCond(t: map<WithdrawalId, WithdrawalRow>, id: WithdrawalId, op: WithdrawalOp) {
    match op
    case PutWithdrawalRow(_) => id !in t
    case ReverseRow => id in t && t[id].status != Reversed
  }

  function WithdrawalAfter(t: map<WithdrawalId, WithdrawalRow>, id: WithdrawalId, op: WithdrawalOp): WithdrawalRow
    requires WithdrawalCond(t, id, op)
  {
    match op
    case PutWithdrawalRow(row) => row
    case ReverseRow => t[id].(status := Reversed)
  }

  predicate HoldCond(t: map<HoldId, HoldRow>, id: HoldId, op: HoldOp) {
    match op
    case PutHoldRow(_) => id !in t
    case MoveHoldRow(from, _) => id in t && t[id].status == from
    case MoveOwnedHold(from, _, user, table) => id in t && t[id].status == from && t[id].user == user && t[id].table == table
  }

  function HoldAfter(t: map<HoldId, HoldRow>, id: HoldId, op: HoldOp): HoldRow
    requires HoldCond(t, id, op)
  {
    match op
    case PutHoldRow(row) => row
    case MoveHoldRow(_, to) => t[id].(status := to)
    case MoveOwnedHold(_, to, _, _) => t[id].(status := to)
  }

  predicate CounterCond(t: map<UserId, Counters>, user: UserId, op: CounterOp) {
    if op.prev.None? then user !in t else user in t && t[user] == op.prev.value
  }

  predicate ConditionsHold(db: Db, tx: Tx) {
    && (forall id :: id in tx.wallets ==> WalletCond(db.wallets, id, tx.wallets[id]))
    && (forall k :: k in tx.markers ==> k !in db.markers)
    && (forall k :: k in tx.ledger ==> k !in db.ledger)
    && (forall k :: k in tx.guards ==> k !in db.guards)
    && (forall id :: id in tx.deposits ==> DepositCond(db.deposits, id, tx.deposits[id]))
    && (forall id :: id in tx.withdrawals ==> WithdrawalCond(db.withdrawals, id, tx.withdrawals[id]))
    && (forall id :: id in tx.holds ==> HoldCond(db.holds, id, tx.holds[id]))
    && (forall u :: u in tx.counters ==> CounterCond(db.counters, u, tx.counters[u]))
  }

  function WalletsAfter(t: map<WalletId, Wallet>, ops: map<WalletId, WalletOp>): (r: map<WalletId, Wallet>)
    requires forall id :: id in ops ==> WalletCond(t, id, ops[id])
    ensures ops == map[] ==> r == t
  {
    t + map id | id in ops :: WalletAfter(t, id, ops[id])
  }

  function DepositsAfter(t: map<Txid, DepositRow>, ops: map<Txid, DepositOp>): (r: map<Txid, DepositRow>)
    requires forall id :: id in ops ==> DepositCond(t, id, ops[id])
    ensures ops == map[] ==> r == t
  {
    t + map id | id in ops :: DepositAfter(t, id, ops[id])
  }

  function WithdrawalsAfter(t: map<WithdrawalId, WithdrawalRow>, ops: map<WithdrawalId,
      WithdrawalOp>): (r: map<WithdrawalId, WithdrawalRow>)
    requires forall id :: id in ops ==> WithdrawalCond(t, id, ops[id])
    ensures ops == map[] ==> r == t
  {
    t + map id | id in ops :: WithdrawalAfter(t, id, ops[id])
  }

  function HoldsAfter(t: map<HoldId, HoldRow>, ops: map<HoldId, HoldOp>): (r: map<HoldId, HoldRow>)
    requires forall id :: id in ops ==> HoldCond(t, id, ops[id])
    ensures ops == map[] ==> r == t
  {
    t + map id | id in ops :: HoldAfter(t, id, ops[id])
  }

  function CountersAfter(t: map<UserId, Counters>, ops: map<UserId, CounterOp>): (r: map<UserId, Counters>)
    ensures ops == map[] ==> r == t
  {
    t + map u | u in ops :: ops[u].next
  }

  function Apply(db: Db, tx: Tx): Db
    requires ConditionsHold(db, tx)
  {
    Db(
      WalletsAfter(db.wallets, tx.wallets),
      db.markers + tx.markers,
      db.ledger + tx.ledger,
      db.guards + tx.guards,
      DepositsAfter(db.deposits, tx.deposits),
      WithdrawalsAfter(db.withdrawals, tx.withdrawals),
      HoldsAfter(db.holds, tx.holds),
      CountersAfter(db.counters, tx.counters))
  }

  datatype TxResult = Committed(db: Db) | ConditionFailed

  function TransactWrite(db: Db, tx: Tx): TxResult {
    if ConditionsHold(db, tx) then Committed(Apply(db, tx)) else ConditionFailed
  }
}
