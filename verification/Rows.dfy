/** The rows the wallet keeps in its tables, and the identifiers that key them.

    Identifiers are typed: the code derives a deposit id, a withdrawal id and a hold id from the
    user and the caller's idempotency key, and `Keys` shows the derivation is injective. Amounts are
    centavos (credits for a sandbox wallet); times are readings of one clock. */
module Rows {
  datatype Option<+T> = None | Some(value: T)

  type UserId = string
  type WalletId = string
  type Time = nat
  type Day = nat

  datatype Txid = Txid(user: UserId, idem: string)
  datatype WithdrawalId = WithdrawalId(user: UserId, idem: string)
  datatype HoldId = HoldId(user: UserId, idem: string)

  /** The key of an idempotency guard row, one constructor per operation. */
  datatype IdemKey =
    | DepositKey(txid: Txid)
    | WithdrawKey(wid: WithdrawalId)
    | ReverseKey(wid: WithdrawalId)
    | BillingKey(user: UserId, idem: string)
    | HoldKey(hold: HoldId)
    | ReleaseKey(hold: HoldId)
    | CashoutKey(user: UserId, idem: string)
    | SandboxKey(credit: bool, user: UserId, idem: string)

  /** What the request fingerprint covers: the operation's reference and its amount. */
  datatype Ref =
    | Text(s: string)
    | DepositRef(txid: Txid)
    | ReversalRef(wid: WithdrawalId)
    | HoldRef(hold: HoldId)
    | CashoutRef(table: string, holds: seq<HoldId>)

  datatype ReqHash = ReqHash(ref: Ref, amount: int)

  datatype WalletType = Real | Game | Sandbox

  /** Admin-only per-wallet overrides; zero means "use the default". */
  datatype Overrides = Overrides(
    minDeposit: int, maxDeposit: int, minWithdrawal: int,
    dailyDepositCap: int, dailyWithdrawCap: int, dailyWithdrawCount: int)

  const NO_OVERRIDES := Overrides(0, 0, 0, 0, 0, 0)

  /** `version` is absent on a row written before versions existed. */
  datatype Wallet = Wallet(user: UserId, kind: WalletType, balance: int, version: Option<nat>, overrides: Overrides)

  /** Sort key of a ledger row: the timestamp, then the entry's own id. */
  datatype SortKey = SortKey(ts: Time, id: string)

  datatype EntryKind =
    | Deposit | Withdraw | Reversal | BillingDebit | HoldDebit | HoldRelease | CashoutCredit | SandboxCredit | SandboxDebit

  datatype Entry = Entry(wallet: WalletId, sk: SortKey, kind: EntryKind, amount: int, balanceAfter: int, key: IdemKey)

  datatype Guard = Guard(wallet: WalletId, sk: SortKey, hash: ReqHash)

  datatype DepositStatus = Pending | Confirmed | RejectedCpf | RefundPending | RefundFailed | Refunded | Expired

  datatype DepositRow = DepositRow(wallet: WalletId, user: UserId, amount: nat, status: DepositStatus)

  datatype WithdrawalStatus = Processing | Completed | Reversed | ReversalFailed

  datatype WithdrawalRow = WithdrawalRow(
    wallet: WalletId, user: UserId, amount: nat, pixKey: string, status: WithdrawalStatus, createdAt: Time)

  datatype HoldStatus = Held | Released | Settled

  datatype HoldRow = HoldRow(wallet: WalletId, user: UserId, amount: nat, table: string, status: HoldStatus)

  /** The real wallet's activity on one calendar day. */
  datatype Counters = Counters(day: Day, depositSum: int, withdrawSum: int, withdrawCount: int)
}
