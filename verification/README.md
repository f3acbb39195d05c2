# Wallet ledger: a verified model

This project models the money core of the wallet service in Dafny and proves what it promises under any
interleaving of its calls, with no lock, with crashes at any point, with stale reads and with commits whose answer
is lost. The lock in the service has a ten-second lease and the reconcile process takes its own, so nothing here is
proved from it: safety comes from the conditions of the store's transactions alone.

## How it is built

- `Rows`, `Store`: the tables as typed maps, and the conditional transaction. Every condition is judged on the state
  before, then all writes apply or none does.
- `System`: the wallet as a state machine. The store, the payment rail (charges, payouts, refunds), one clock, and
  every atomic action a call can take. A balance change (`Flow`) is prepared from earlier reads; `Known` is exactly
  what those reads still prove at the moment of the commit, and it is all an action may use. A run is any
  interleaving of any number of calls; a crashed call is one that takes no more actions.
- `Ledger`, `Withdrawals`, `Deposits`, `Markers`, `Books`, `Holds`, `DailyCounters`, `Slots`, `Fingerprints`: one
  invariant each, preserved by every action of every call. `Runs` puts them together over whole runs; `Growth` says what
  no action ever takes back; `Theorems`, `Statement` and `Races` state the results.
- `Transactions`, `Calls`, `Repository`, `Reconcile`, `Withdraw`, `DepositFlow`, `HoldFlow`: the imperative code, one
  access at a time, over the object `Call`. Between any two accesses stands `Pause`, whose contract is `Rely`;
  `Growth.StepRelied` and `Runs.RunRelied` show that whatever other calls do is within it. Every write is an action of
  the state machine, so every state a method sees is a reachable one and the theorems hold in it. `did` records the
  steps a call took, `tried` the commits it sent, `heard` what the rail answered, `faults` the accesses that failed or
  read something stale: contracts say what holds always, and why each answer was given where no access failed. A cause
  is a state between two others (`Calls.Within`), or the entries committed between them.
- `Limits`, `Schedule`: the limit arithmetic and the closing-days estimate. `Keys`: idempotency keys as strings.
- `Erasure`, `Purge`: the erasure of an account as its own state machine, and the purge as code.

## What the proofs assume

- Clock readings strictly increase across all processes, and timestamps sort as strings in time order. Calendar days
  never go back. A withdrawal's age is judged within `latency` of the rail's answer.
- The rail is Billing: a charge has one payment and reports no refunds; a payout goes from absent to processing to
  done or failed and stays there; a payout is accepted only within `window` of its row's creation time; an accepted
  refund is one per key.
- A deposit is read without consistency (`repositories/wallet.go:473-479`), so a read may show any status the row
  has had, or miss the row; that reads are fresh is a promise of the environment (`freshReads`), used only where a
  result says so.
- The rows of a purge are listed through a secondary index, which has no consistent read, so a listing may miss a row or
  show it as it once was; that the index has caught up is a promise as well (`indexCaughtUp`).
- A page of the statement is read from some state of the ledger, earlier or later than the page before it: the query is
  not consistent either. `Statement.PagesJoin` says what the second state must still hold.
- No self-exclusion is recorded for a user between the moment a purge carries the exclusion over and the moment it
  erases the profile (`Purge.NoNewExclusion`).
- Per-wallet overrides do not change during a run. Amounts are unbounded integers (centavos or credits).
- The store starts empty, except for holds opened on a game wallet retired since. Wallet rows then always carry a
  version; the balance condition would also admit a row without one, which this code never writes.
- The machine lets a call take only the steps its reads justify (`Known`, `Proven`, `DepositMove`, the right to ask a
  payout). That the code takes no other step is what the method proofs show: each write in `Calls` requires its step to
  be enabled, and every caller has to prove it. In particular a call that runs a deposit alone on fresh reads never
  moves it out of `confirmed`.
- Environment promises are fields of `Env` and of `Erasure.Config`. `sameDay` and `creditsSucceed` are only used where a
  theorem says so; the methods are proved without them, and `Theorems.PromisesOnlyLeaveRunsOut` shows that a run which
  keeps them is the same run with and without the promise.

## Where a promise fails, and exactly when it holds

- A reconcile pass asks the rail first and measures the row's age afterwards (`services/reconcile.go:44-64`, 241-251).
  A payout accepted between the two can be paid and credited back. It never happens exactly when the acceptance
  window plus the time between answer and age check fits in the ten minutes of grace (`Races.NeverBothExactly`).
- A confirmation that takes a credited deposit for pending finds the daily cap used up by that very credit, loses its
  rejection, re-reads the row as confirmed and refunds it (`services/wallet.go:586-588`, 760-785). It takes it for
  pending when it overlaps the confirmation that credits it (`Races.CreditedAndRefunded`), or, long after that one has
  ended, when its own read is stale (`Races.CreditedThenRefunded`). A deposit is never both credited and refunded
  exactly when calls on one deposit do not overlap and each reads what the ones before it wrote
  (`Races.NeverCreditedAndRefundedExactly`).
- A reversal can give back a daily slot that was not taken: counted before midnight but created after it
  (`services/wallet.go:920`, 950), or marked reversed again after a failed-reversal write or a late completion
  overwrote the mark (`services/reconcile.go:52-54`, 133). `Races.ClampsNeverFireExactly` gives the exact condition.
- A second, different payer identity written to a deposit after a purge is lost by the next purge, because the retained
  copy is write-once (`Erasure.NeverLostExactly`).
- A purge answers "done" although an identity is still on a row, when it lists the rows before the index shows that
  identity (`repositories/erasure.go:57-75`, `services/erasure.go:277-291`; `Erasure.DoneTooEarly`). Purges answered as
  done have stripped everything exactly when each lists only once the index has caught up
  (`Erasure.DoneIsCompleteExactly`).
- A second statement page read from a replica behind the first one skips entries, exactly when that replica does not
  hold everything below the first page (`Statement.PagesJoinExactly`).
- A carried self-exclusion is stored in whole seconds and lapses within the last one
  (`Erasure.WholeSecondsExactly`).
- The deposit form accepts an amount the server refuses when a wallet's minimum deposit is above the inbound ceiling
  (`Limits.DepositFormExact`).
- The closing-days estimate is attained exactly when one cap covers the balance, or one withdrawal a day is allowed and
  the cap is not below the minimum withdrawal (`Schedule.EstimateExact`): with a larger count the cap is still a daily
  sum, and with a cap below minimum and balance nothing can be withdrawn at all.
- Two operations share a stored idempotency key exactly when one user id extends another by `#`, or by the NUL that
  joins the ids under the hash of a deposit's id (`Keys.KeysApartExactly`).
- A caller that lost a wallet's creation and then read a stale marker gets no wallet (`Repository.EnsureWallet`); the
  service then dereferences it.

The design note "a failed condition on a debit is an insufficient balance" (`repositories/wallet.go:778-780`) is not
what the code knows: a lost version race gives the same answer. `Repository.Explained` and `Repository.Beaten` state
what the answer means.

## Model

| member | source | states |
|---|---|---|
| Theorems.BalanceIsTheSumOfItsCommits | api/internal/repositories/wallet.go:254-306 | at every moment of every run a balance is the sum of the entries committed on its wallet, is never negative, and the version counts those commits |
| Theorems.EntryTellsTheBalance | api/internal/repositories/wallet.go:276-306 | each committed entry's `balance_after` is its wallet's balance right after that commit, and the entry is never altered or dropped |
| Theorems.SortKeyOrderIsCommitOrder | api/internal/repositories/wallet.go:678-693 | timestamps taken after the wallet read make sort-key order equal commit order on a wallet |
| Theorems.OncePerKey | api/internal/repositories/wallet.go:727-741 | no idempotency key commits twice in a run, and its guard keeps naming the entry of that one commit and its fingerprint |
| Theorems.GuardNamesItsEntry | api/internal/repositories/wallet.go:745-776 | a guard leads to the one entry committed under its key, and any entry with that key is that entry |
| Theorems.RepairIsANoOp | api/internal/repositories/wallet.go:262-275 | re-applying the lifecycle rows of a committed withdrawal or deposit is refused in every reachable state, so no counter is bumped twice |
| Theorems.RowExactlyWhenDebited | api/internal/services/wallet.go:943-965 | a withdrawal row exists exactly when its debit committed, on the same wallet and for the same amount |
| Theorems.WithdrawalOutcomes | api/internal/services/reconcile.go:116-148 | `completed` implies the rail paid; `reversed` implies the one credit of exactly the debited amount to the debited wallet |
| Theorems.PayoutAskedOnce | api/internal/services/wallet.go:968-981 | over a whole run the rail is asked to pay a withdrawal at most once |
| Theorems.CreditedOrRejected | api/internal/services/wallet.go:760-850 | in every interleaving at most one of a deposit's credit and its rejection commits; `refunded` implies the rail accepted; every refund request asks the paid amount |
| Theorems.ReservedAmountIsFinal | api/internal/services/wallet.go:374-408 | a deposit's owner, wallet and amount never change, and every charge opened for it carries that amount |
| Theorems.RealMoneyEquation | api/internal/services/wallet.go:598-605 | a real balance is the credited deposits, minus withdrawals not credited back, minus billing debits, minus holds not released, plus cash-outs |
| Theorems.SandboxMovesNoRealMoney | api/internal/services/wallet.go:1088-1115 | a sandbox operation changes no term of any real wallet's equation |
| Theorems.HoldResolvedOnce | api/internal/repositories/holds.go:136-225 | in a run a hold's status changes only from `held`, in the commit that releases it or cashes it out for its owner, and never again |
| Theorems.HoldsConserve | api/internal/services/wallet.go:1214-1285 | a release credits the whole hold to its owner's real wallet even when the row names a retired one; releases and cash-outs together never exceed what was reserved |
| Theorems.CountersExact | api/internal/services/wallet.go:571-605 | the stored day is not in the future, its deposit sum is what was credited that day, and no counter passes its limit, under any interleaving |
| Theorems.DayNeverGoesBack | api/internal/repositories/user.go:94-112 | a user's stored day never goes back, though the write compares values only |
| Theorems.SlotsExactlyTaken | api/internal/services/reconcile.go:215-237 | under the stated promises the day's withdrawal count and sum are exactly the withdrawals whose slot was not given back |
| Theorems.SlotGivenBackOnce | api/internal/repositories/wallet.go:622-629 | a withdrawal's daily slot is given back at most once in a run |
| Theorems.OneWalletPerOwner | api/internal/repositories/wallet.go:143-240 | one wallet per user and type over a whole run, never replaced, and its marker names it |
| Theorems.PromisesOnlyLeaveRunsOut | api/internal/services/reconcile.go:129-138 | a run in which every withdrawal is counted on its creation day and no reversal credit fails is the same run with and without those promises |
| Races.NeverBothExactly | api/internal/services/reconcile.go:37-87 | no withdrawal is both paid and credited back in any run if and only if the rail's window plus the query latency fits in the grace |
| Races.PaidAndReversed | api/internal/services/reconcile.go:241-251 | the run that pays and credits back: asked before the acceptance, believed after it |
| Races.NeverCreditedAndRefundedExactly | api/internal/services/wallet.go:445-610 | no deposit is both credited and refunded in any run if and only if calls on one deposit do not overlap and each reads what the ones before it wrote |
| Races.CreditedAndRefunded | api/internal/services/wallet.go:766-785 | the overlapping run that credits and refunds: a rejection lost to the confirmation whose credit used up the cap |
| Races.CreditedThenRefunded | api/internal/services/wallet.go:586-588 | the run without overlap: a later call reads the credited row as pending, finds the cap used up by that credit, and refunds it |
| Races.ClampsNeverFireExactly | api/internal/services/reconcile.go:228-231 | a reversal never gives back a slot the counters do not hold if and only if withdrawals are counted on their creation day, no credit-back is reported failed, and the grace covers the window |
| Races.SlotOnTheWrongDay | api/internal/services/wallet.go:920-951 | the run that counts a withdrawal before midnight, creates its row after it, and gives the slot back on a day that never held it |
| Races.SlotTwiceAfterLostAnswer | api/internal/services/reconcile.go:129-138 | the run in which a failed-reversal write over a reversed row lets its slot go twice |
| Races.SlotTwiceAfterPayment | api/internal/services/reconcile.go:50-56 | the run in which a late completion over a reversed row lets its slot go twice |
| Ledger.LedgerPreserved | api/internal/repositories/wallet.go:697-715 | every action of every call keeps balances, versions, entries, their order and the guards in step |
| Ledger.SnapshotIsCurrent | api/internal/repositories/wallet.go:697-705 | under the version condition the balance read is the current one, whatever was committed in between |
| Withdrawals.RowsPreserved | api/internal/services/wallet.go:943-1009 | every action keeps withdrawal rows, their debits and credits, payout permissions and the rail's payouts in step |
| Withdrawals.CreditPreserved | api/internal/services/reconcile.go:57-76 | when the grace covers the window, every action keeps credited-back withdrawals unpayable for ever |
| Deposits.DepositsPreserved | api/internal/services/wallet.go:445-610 | every action keeps deposit rows, credits, rejections, charges and refunds in step |
| Deposits.ExclusivePreserved | api/internal/services/wallet.go:760-785 | while calls on one deposit neither overlap nor read it stale, a credited deposit stays confirmed and is never sent back |
| Markers.MarkersPreserved | api/internal/repositories/wallet.go:186-215 | every action keeps wallet rows and (user, type) markers in bijection |
| Books.BooksPreserved | api/internal/services/wallet.go:957-965 | every action keeps the real-money equation of every real wallet |
| Holds.HoldsPreserved | api/internal/repositories/holds.go:136-182 | every action keeps holds on their owner's real wallet and released exactly when their credit committed |
| Holds.ConservedPreserved | api/internal/services/wallet.go:1257-1283 | every action keeps a user's cash-out credits within the user's settled reservations |
| Holds.CreditsWithinReserved | api/internal/services/wallet.go:1257-1283 | release and cash-out credits of a user together stay within everything the user's holds reserved |
| Holds.LeavesHeldWithItsCredit | api/internal/repositories/holds.go:156-166 | the action that changes a hold's status is the commit crediting it, from `held` only |
| Fingerprints.PrintsPreserved | api/internal/services/wallet.go:1289-1294 | every action keeps the fingerprint under a deposit's, hold's or release's key that of its row, so a replay conflicts exactly when it asks for something else |
| Fingerprints.KindsPreserved | api/internal/repositories/wallet.go:678-693 | every entry is of the kind its key calls for, credits positive and debits negative |
| DailyCounters.CountersPreserved | api/internal/repositories/user.go:94-112 | every action keeps deposit sums exact and all counters within their limits |
| Slots.SlotsPreserved | api/internal/services/reconcile.go:215-237 | under the stated promises every action keeps withdrawal counters equal to the slots taken |
| Slots.NoClamp | api/internal/services/reconcile.go:228-231 | under the stated promises neither clamp at zero fires |
| Growth.StepGrows | api/internal/repositories/wallet.go:254-306 | no action takes back a committed entry, guard or row, a final rail answer, or an override |
| Growth.KnownStays | api/internal/repositories/wallet.go:276-300 | whatever a call learned before a commit it still knows after any steps of other calls |
| Growth.StepRelied | api/internal/lock/lock.go:21-23 | no action of another call goes beyond what a paused call relies on, with no lock |
| Runs.RunInv | api/internal/repositories/wallet.go:254-306 | all invariants hold at every moment of every run |
| Runs.RunRelied | api/internal/lock/lock.go:21-23 | while a call takes no action, everything the others do stays within what it relies on |
| Statement.RowsChain | api/internal/api/v1/ledger_view.go:20-22 | within a page each row's derived balance before is the next older row's balance after |
| Statement.PagesJoin | api/internal/repositories/wallet.go:390-397 | pages read at different times, the second from any state that still holds what lies below the first, join into the page one query would have given, nothing skipped or repeated; the balance chain crosses the boundary and ends at zero |
| Statement.PagesJoinExactly | api/internal/repositories/wallet.go:390-397 | for any two states of a run, in either order, the pages join if and only if the second state reaches back to the first page, or its empty answer says that more may remain |
| Statement.PageIsSlice | api/internal/repositories/wallet.go:390-397 | a page of the backward query is a contiguous run of the wallet's history, all of it when nothing more remains |
| Transactions.CommitIsTransaction | api/internal/repositories/wallet.go:282-306 | a balance change goes through exactly when every condition of its transaction holds, and leaves balance, entry, guard and lifecycle rows together |
| Transactions.MoveIsTransaction | api/internal/repositories/wallet.go:558-588 | a deposit transition goes through exactly from the status it names |
| Transactions.PutIsTransaction | api/internal/repositories/wallet.go:458-471 | a reservation goes through exactly when no row has its id |
| Transactions.MarkIsTransaction | api/internal/repositories/wallet.go:630-643 | the reversed mark and the slot go through together, exactly on a row not yet reversed and counters unchanged since read |
| Transactions.OpenIsTransaction | api/internal/repositories/wallet.go:186-214 | a wallet and its marker are created together, exactly when neither exists |
| Calls.Call.CheckReplay | api/internal/repositories/wallet.go:745-765 | a prior entry or a conflict is always true of the store; only "fresh" can be stale |
| Calls.Call.Commit | api/internal/repositories/wallet.go:301-306 | applied, refused with nothing changed, or unanswered with the commit possibly made |
| Calls.Call.Payout | api/internal/rail/billing.go:136-176 | one payout request, allowed only to the call whose debit was answered; done, failed and processing answers are the rail's own, and go on the call's record |
| Calls.Call.QueryPayout | api/internal/rail/billing.go:144-159 | what the rail says of a payout is true when it says it; "no key" counts as failed |
| Calls.Call.RefundDeposit | api/internal/rail/billing.go:121-130 | success means the rail accepted a refund of this deposit; anything else counts as one failed access |
| Calls.Call.TransitionDepositStatus | api/internal/repositories/wallet.go:574-588 | compare-and-set: the row moved from the named status, or nothing changed |
| Calls.Call.GetDeposit | api/internal/repositories/wallet.go:473-479 | a read without consistency: the fixed part is right and the status is one the row has had, or the row is missed; it is the row as it is only where nothing was stale, or reads are fresh and the call runs the deposit alone |
| Repository.ReadAndStamp | api/internal/repositories/wallet.go:277-286 | the snapshot is the wallet as it was when read; the timestamp is later than every entry it counted, and still is when the commit comes |
| Repository.Attempt | api/internal/repositories/holds.go:54-97 | the wallet is read, the entry stamped and the commit sent once; an answered commit is the entry under its key, a refused one lost to another entry, a balance too small, its own key, or a row not as it must be |
| Repository.ResolveTxErr | api/internal/repositories/wallet.go:781-799 | a refused commit is answered by the entry already there, a conflict, or a debit or credit given up |
| Repository.Repair | api/internal/repositories/wallet.go:262-275 | the replayed lifecycle rows are refused |
| Repository.Mutate | api/internal/repositories/wallet.go:254-306 | reports done only for its own answered commit, replayed only with the entry of the key and fingerprint, conflict only for another fingerprint; without a failed access it gives up only on a commit sent and refused, whose key has not committed, and only because another entry came first on the wallet, the wallet held less than the debit, or a named row or the counters were not as they must be |
| Repository.RefusedBecause | api/internal/repositories/wallet.go:276-306 | with the wallet as it was read and the stamp taken after it, these causes are the only ones that can refuse a commit |
| Repository.MarkWithdrawalReversed | api/internal/repositories/wallet.go:630-651 | an answer without error means the row is reversed; without a failed access it always succeeds, with the slot exactly when row and counters allow it, and otherwise with the plain mark unless the row carries it |
| Repository.EnsureWallet | api/internal/repositories/wallet.go:143-240 | whichever concurrent caller creates it, the wallet returned is the owner's one wallet of that type; the call creates at most that wallet and nothing else |
| Repository.CreateHold | api/internal/repositories/holds.go:38-99 | a hold reported placed is a debit of its whole amount committed with its row, once; a replay is for the same amount and table, a conflict for another, and without a failed access an insufficient balance means the debit was sent and refused |
| Repository.ReleaseHoldAtomic | api/internal/repositories/holds.go:136-182 | an answered release means the hold is resolved, by this call's commit or before; a failure without failed access leaves it held, after a commit that lost the wallet to another entry |
| Reconcile.ReleaseWithdrawalSlot | api/internal/services/reconcile.go:215-237 | the slot is the user's current counters when they are still of the creation day, else nothing |
| Reconcile.ReverseOne | api/internal/services/reconcile.go:116-148 | success means the credit is in the ledger; without a failed access the row is then reversed and its slot handled, and otherwise the credit was sent and lost the wallet to another entry, and the failure is on record |
| Reconcile.NotFoundIsProof | api/internal/services/reconcile.go:57-62 | "unknown", asked before the age is measured and within the latency, is evidence that survives an acceptance in between only as late as the asking |
| Reconcile.ReconcileOne | api/internal/services/reconcile.go:43-84 | the rail is asked before the age is judged; a row counted resolved was paid and this turn wrote its completion; where no access failed the rail's answer alone decides what is done, and an alarm follows only a reversal that was sent and lost its race |
| Reconcile.ReconcileWithdrawals | api/internal/services/reconcile.go:37-87 | every listed row has its turn and the pass does what its turns do; what is counted resolved the rail paid and the pass completed, what is counted reversed is credited back, and the three counts are exact |
| Withdraw.Prepare | api/internal/services/wallet.go:891-942 | an existing row ends the call as replay or conflict, and every other refusal has its cause: an amount below the minimum that does not empty the wallet, a day that was full, no destination; a call that goes on passed every check, and what it read justifies the debit at its commit |
| Withdraw.PayRow | api/internal/services/wallet.go:981-1009 | the rail is asked first and once, and its answer decides: done is recorded as completed, failed or no key is reversed at once, anything else is left processing |
| Withdraw.DebitAndPay | api/internal/services/wallet.go:957-981 | the payout request follows this call's own answered debit; a replay returns the row and never asks; a refused debit was sent and has its cause |
| Withdraw.WithdrawNow | api/internal/services/wallet.go:872-1009 | how the whole call ends: refused for a named cause with nothing moved, refused by a debit that was sent and could not be made, or paid out exactly as the rail answered |
| DepositFlow.RejectMismatch | api/internal/services/wallet.go:760-778 | sent back means the rail accepted the refund; where calls do not overlap and no access failed, always sent back, whatever the row has become since it was read |
| DepositFlow.RefundMismatch | api/internal/services/wallet.go:783-833 | the compensation resumes from any status read, confirmed included unless the call runs the deposit alone on fresh reads; where calls do not overlap, the row is as it was read and no access failed, always sent back |
| DepositFlow.Refund | api/internal/services/wallet.go:811-833 | the refund is asked for the paid amount; where calls do not overlap the row is then refunded if the rail confirmed it and marked failed if it did not |
| DepositFlow.MarkDepositRefunded | api/internal/services/wallet.go:835-850 | a row in refund processing ends refunded; otherwise success is answered exactly when the row is refunded |
| DepositFlow.CreditOrReject | api/internal/services/wallet.go:560-608 | without overlap and with no access failed, a pending payment is sent back only if the day's stored deposits left no room under the cap at some moment of the call, credited only if they did, and left only after its credit was sent and refused |
| DepositFlow.ConfirmOne | api/internal/services/wallet.go:445-610 | credited only with the credit committed, sent back only with the refund accepted; without overlap and with no access failed or stale, the row's status, the payment as the rail reported it, the payer and the day's cap decide which, and nothing is done for a payment that waits |
| DepositFlow.InitiateDeposit | api/internal/services/wallet.go:325-408 | an opened deposit is the reserved row and a charge of its amount, within the wallet's range; out of range is answered exactly when it is, over the cap only when the day was full, and a deposit reserved only when it was not; losing the reservation recurses at most once when reads are consistent |
| HoldFlow.HoldGame | api/internal/services/wallet.go:1153-1175 | a hold placed is a committed debit of exactly its amount, a replay is for the same amount and table; refusals are a missing wallet, an exclusion, another hold under the id, or a debit that was sent and refused; the first two move nothing |
| HoldFlow.ReleaseHold | api/internal/services/wallet.go:1181-1231 | an answered hold is resolved and the caller's, by this call's own commit unless it reports a replay; another user's hold is refused with nothing done; a release given up was sent and lost its race |
| HoldFlow.CheckHolds | api/internal/services/wallet.go:1253-1276 | passes only distinct holds of the caller, held at the table when looked at, and returns exactly what they reserved; each refusal names its cause |
| HoldFlow.CashoutGame | api/internal/services/wallet.go:1237-1285 | a cash-out credits its amount, at most what at most twenty distinct holds of the caller reserved; a refusal without a commit has its cause, and one that was sent is answered by its own credit, the earlier one, a conflict of fingerprints, or a commit refused |
| HoldFlow.DebitReal | api/internal/services/wallet.go:1120-1144 | one debit of exactly the amount per request key, replayed as the same entry; a conflict is another fingerprint, and without a failed access a refusal was sent and lost its race or found too little |
| HoldFlow.SandboxOp | api/internal/services/wallet.go:1088-1115 | one sandbox movement of exactly the signed amount per request key; refusals as for a debit of the real wallet |
| Limits.DepositFormExact | ui/src/lib/utils/amount-bounds.ts:23-28 | the deposit form and the server agree on every amount if and only if the minimum deposit fits under the inbound ceiling or nothing can be deposited |
| Limits.WithdrawFormExact | ui/src/lib/utils/amount-bounds.ts:23-28 | the withdrawal form and the server agree on every amount, the empty-the-balance exception included |
| Limits.MaxNowIsGreatest | api/internal/domain/wallet/rail_limits.go:35-70 | `max_now` is the greatest amount the range and daily checks accept, or zero when they accept none |
| Limits.ShownIsEnforced | api/internal/domain/wallet/rail_limits.go:35-70 | the ranges, remaining sums and remaining count shown are exactly what the checks enforce |
| Limits.LimitsFollowOverrides | api/internal/domain/wallet/daily_limits.go:29-48 | caps and count are the wallet's override where one is set, else the defaults; a deposit below one real is never accepted and the minimum itself always is; a withdrawal below the minimum only when it empties the wallet |
| Schedule.EstimateIsLowerBound | api/internal/services/erasure.go:149-155 | no schedule the daily checks admit empties the balance in fewer days than the estimate |
| Schedule.EstimateExact | api/internal/services/erasure.go:149-155 | the estimate is attained by a schedule every check accepts if and only if one cap covers the balance, or one withdrawal a day is allowed and the cap is not below the minimum |
| Keys.KeysApartExactly | api/internal/services/wallet.go:286-291 | under a digest without collisions two operations never share a stored key if and only if no user id extends another by `#` or by NUL |
| Erasure.NeverLostExactly | api/internal/repositories/erasure.go:117-163 | concurrent, crashed and restarted purges never lose a payer identity or PIX key if and only if no row is ever given a second, different identity |
| Erasure.SecondIdentityLost | api/internal/services/wallet.go:453-458 | the run that loses one: another identity written after a purge and purged again |
| Erasure.DoneIsCompleteExactly | api/internal/repositories/erasure.go:57-75 | a purge answered as done has stripped, after copying, every identity on a row of its user when it began, in every run, if and only if purges list only once the index has caught up |
| Erasure.DoneTooEarly | api/internal/services/erasure.go:277-291 | the run that answers done with the identity still on its row and no copy of it: the index did not show it yet |
| Erasure.RetainedForGood | api/internal/repositories/erasure.go:117-148 | a retained copy never changes and never goes |
| Erasure.ExclusionOutlivesItsProfile | api/internal/services/erasure.go:267-312 | whatever other purges did, an erased account's self-exclusion is found under its CPF hash: without an end, or with one that cannot be read, for the retention years from the purge; with an end still to come, until the second it falls in |
| Erasure.EndedIsNotCarried | api/internal/domain/wallet/erasure.go:89-104 | an exclusion that has ended is never carried over |
| Erasure.WholeSecondsExactly | api/internal/repositories/erasure.go:217-251 | a carried exclusion holds at every instant before its end if and only if it ends on a whole second |
| Purge.StepIsLater | api/internal/repositories/erasure.go:131-163 | no purge takes back a retained copy, a strip, a carry or an erasure |
| Purge.Purger.CarrySelfExclusion | api/internal/services/erasure.go:327-351 | success means an exclusion to be carried is stored, to its end or for the retention years; one that has ended, or has nothing to key it on, changes nothing |
| Purge.Purger.RetainAndStrip | api/internal/services/erasure.go:280-309 | every row listed with an identity, whatever the row carries by now, is copied and then stripped, and counted once |
| Purge.Purger.AllByUser | api/internal/repositories/erasure.go:57-75 | a listing shows rows of the user, each bare or with an identity it has had; only where nothing lagged, or once the index has caught up, does it miss no identity that was there when the purge began |
| Purge.Purger.PurgeAccount | api/internal/services/erasure.go:254-322 | done means the profile is erased after the exclusion it held was carried, to its end or for the retention years; where no listing lagged, or the index has caught up, also that every identity on a row of the user at the start is retained and stripped since |

## Left out

- Transfer: has no live caller; a balance change here touches one wallet.
- ReverseWithdrawal: has no caller; it is one read followed by the modelled reversal.
- Rails that report refunds or several payments: `processDepositRefund`, `reverseDeposit`, `refundExcessPayments` and
  `UpdateDepositStatus` do nothing on Billing.
- SweepPendingDeposits, SweepDepositRefunds, SweepStaleHolds: loops that call the modelled confirmation, or only alarm.
- EnsureGamblingWallets: creating several wallet types in one transaction; the model creates one type at a time.
- Payer checks: masked CPF and name matching are an arbitrary verdict passed to the confirmation.
- Purge.Purger.AllByUser: models the pages of one listing as read at one moment; rows that changed between pages count
  as a listing that lagged.
- EraseUserProfile: removing the daily counters of an erased user is not an action of the money machine; erasure has
  its own machine, in which rows carry only owner and identity. That a purge moves no money and leaves ledger and
  balances alone is not a result here: it holds only because the two machines are separate. Blockers and
  AnonymizeAudit are not modelled.
- Repository.EnsureWallet: does not model deletion or admin edits of wallets; overrides are fixed in a run.
- Withdraw.WithdrawNow: does not model the closure exemption of the minimum, which no caller sets.
- DepositFlow.CreditOrReject: does not promise that a credit refused by a version race is retried at once; the code
  answers with an error and a later wake-up retries.
- Keys.KeysApartExactly: takes the truncated SHA-256 digest that makes a deposit's id to be without collisions.
- 64-bit overflow of balances and counters, string encoding, pagination cursors and TTL deletion of ledger and
  retention rows.
- Descriptions, display fields, events, alarms, HTTP, authentication, KYC and the lock's own mechanics.
- Retired code: game limits, sandbox and product purchases, AnyDebitSince.
