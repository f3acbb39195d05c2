/** One running call: the store and the rail as it sees them, the steps it may take, and `Pause`, where
    all other calls run. The code pauses between any two accesses. */
module Calls {
  import opened Rows
  import opened Limits
  import opened Store
  import opened System
  import opened Ledger
  import opened Withdrawals
  import opened Deposits
  import opened Growth
  import opened Runs
  import opened Theorems
  import opened Transactions

  /** The store's answer to a conditional write: done, refused by a condition, or an error that leaves the
      caller not knowing. */
  datatype Answer = Applied | Refused | NoAnswer

  /** What the rail says about a payout. */
  datatype PayoutAnswer = RailError | KeyNotFound | TransferFailed | TransferProcessing | TransferDone | TransferNotFound

  /** One answer of the rail about a payout, and the state in which it was given. */
  datatype Heard = Heard(wid: WithdrawalId, answer: PayoutAnswer, at: State)

  /** A call's record at one moment: the steps it took, the commits it sent, whatever became of them, what the rail
      answered it about payouts, and how many accesses failed, lost their answer, or missed what was there. */
  datatype Log = Log(did: seq<Action>, tried: seq<Flow>, heard: seq<Heard>, faults: nat)

  /** What a replay check finds under an idempotency key. */
  datatype Replay = Fresh | Prior(entry: Entry) | Mismatch | ReadFailed

  /** The clock reading that follows a wallet read is later than every entry that read counted. */
  lemma StampIsLater(env: Env, s: State, w: WalletId, read: Snapshot, now: Time)
    requires Reachable(env, s) && WalletRead(s, w, read) && s.clock < now
    ensures WalletRead(s.(clock := now), w, read) && StampedAfter(s.(clock := now), w, read, now)
  {
    ReachableInv(env, s);
    forall i | 0 <= i < read.version ensures s.hist[w][i].sk.ts < now {
      assert EntryOk(s, w, i);
    }
  }

  class Call {
    const env: Env
    const me: CallId
    var sys: State
    ghost var did: seq<Action>
    ghost var tried: seq<Flow>
    ghost var heard: seq<Heard>
    ghost var faults: nat

    ghost function Record(): Log reads `did, `tried, `heard, `faults { Log(did, tried, heard, faults) }

    /** The state is one the system can reach. The promises that a withdrawal is counted on its creation day
        and that no reversal credit fails are not made: a run that keeps them is a run without them. */
    ghost predicate Valid() reads this`sys {
      Reachable(env, sys) && Calendar(env) && !env.sameDay && !env.creditsSucceed
    }

    /** Whether a condition of the transaction fails. When none does, the write takes the step whose state is the
        one the transaction leaves; `Transactions` shows that for each write below. */
    method Refuses(tx: Tx) returns (refused: bool)
      ensures refused <==> TransactWrite(sys.db, tx).ConditionFailed?
    {
      refused := TransactWrite(sys.db, tx).ConditionFailed?;
    }

    /** Other calls run, any number of steps of each. The body is empty because a caller learns only what
        the contract says: whatever is proved after a pause holds for every interleaving. */
    method Pause()
      requires Valid()
      modifies this`sys
      ensures Valid() && Rely(env, me, old(sys), sys)
    {
    }

    /** A pause no longer than the environment promises for reading the clock after the rail answered. */
    method PauseBriefly(since: Time)
      requires Valid() && sys.clock == since
      modifies this`sys
      ensures Valid() && Rely(env, me, old(sys), sys) && sys.clock <= since + env.latency
    {
    }

    /** A timestamp; no two readings are equal. */
    method NowStr() returns (now: Time)
      requires Valid()
      modifies this`sys
      ensures Valid() && old(sys.clock) < now && sys == old(sys).(clock := now)
    {
      now := sys.clock + 1;
      ReachStep(env, me, Tick(now), sys);
      sys := sys.(clock := now);
    }

    /** The guard is read without consistency: a committed key may still look absent, a key that looks
        committed is. */
    method CheckReplay(key: IdemKey, hash: ReqHash) returns (r: Replay)
      requires Valid()
      modifies this`faults
      ensures faults >= old(faults)
      ensures r.Prior? ==>
          key in sys.db.guards && sys.db.guards[key].hash == hash && GuardOk(sys, key) && r.entry == EntryOf(sys, key)
      ensures r.Mismatch? ==> key in sys.db.guards && sys.db.guards[key].hash != hash
      ensures r.ReadFailed? || (r.Fresh? && key in sys.db.guards) ==> faults > old(faults)
    {
      var down: bool := *;
      faults := if down then faults + 1 else faults;
      if down {
        return ReadFailed;
      }
      if key !in sys.db.guards {
        return Fresh;
      }
      var stale: bool := *;
      faults := if stale then faults + 1 else faults;
      if stale {
        return Fresh;
      }
      var g := sys.db.guards[key];
      if g.hash != hash {
        return Mismatch;
      }
      GuardNamesItsEntry(env, sys, key, "", 0);
      r := Prior(sys.db.ledger[LedgerKey(g.wallet, g.sk)]);
    }

    /** The balance and version of an existing wallet, read consistently. */
    method GetWallet(w: WalletId) returns (read: Snapshot)
      requires Valid() && w in sys.db.wallets
      ensures WalletRead(sys, w, read)
      ensures read.version == |sys.hist[w]| && read.balance == sys.db.wallets[w].balance
    {
      ReachableInv(env, sys);
      var row := sys.db.wallets[w];
      read := Snapshot(row.balance, row.version.value);
      assert sys.hist[w][..read.version] == sys.hist[w];
    }

    /** The whole row of an existing wallet, read consistently. */
    method GetWalletRow(w: WalletId) returns (row: Wallet)
      requires Valid() && w in sys.db.wallets
      ensures row == sys.db.wallets[w] && row.balance >= 0
    {
      ReachableInv(env, sys);
      row := sys.db.wallets[w];
    }

    /** The one transaction of a balance change. A refused transaction changed nothing; an unanswered one
        may have committed. */
    method Commit(f: Flow, read: Snapshot, sk: SortKey) returns (a: Answer)
      requires Valid() && Known(env, sys, f) && (f.ConfirmDeposit? ==> MayRun(env, me, sys, f.txid))
      requires WalletRead(sys, MutationOf(env, f).wallet, read) && StampedAfter(sys, MutationOf(env, f).wallet, read, sk.ts)
      modifies `sys, `did, `tried, `faults
      ensures Valid() && Later(old(sys), sys) && TokensKept(me, old(sys), sys)
      ensures tried == old(tried) + [f] && faults == old(faults) + (if a.NoAnswer? then 1 else 0)
      ensures a.Applied? ==>
        && Commits(old(sys), MutationOf(env, f), read, sk) && did == old(did) + [Post(f, read, sk, true)]
        && sys == AfterPost(env, me, old(sys), f, read, sk, true)
      ensures a.Refused? ==> !Commits(old(sys), MutationOf(env, f), read, sk) && did == old(did) && sys == old(sys)
      ensures a.NoAnswer? ==>
        || (did == old(did) && sys == old(sys))
        || (&& Commits(old(sys), MutationOf(env, f), read, sk) && did == old(did) + [Post(f, read, sk, false)]
            && sys == AfterPost(env, me, old(sys), f, read, sk, false))
    {
      tried := tried + [f];
      if * {
        faults := faults + 1;
        LaterRefl(sys);
        return NoAnswer;
      }
      CommitIsTransaction(sys, MutationOf(env, f), read, sk);
      var refused := Refuses(TxFor(MutationOf(env, f), read, sk));
      if refused {
        LaterRefl(sys);
        return Refused;
      }
      var answered: bool := *;
      CommitNow(f, read, sk, answered);
      if !answered {
        faults := faults + 1;
        return NoAnswer;
      }
      a := Applied;
    }

    method CommitNow(f: Flow, read: Snapshot, sk: SortKey, answered: bool)
      requires Valid() && CanPost(env, me, sys, f, read, sk)
      modifies this`sys, this`did
      ensures Valid() && Later(old(sys), sys) && TokensKept(me, old(sys), sys)
      ensures did == old(did) + [Post(f, read, sk, answered)] && sys == AfterPost(env, me, old(sys), f, read, sk, answered)
    {
      PostStep(env, me, sys, f, read, sk, answered);
      did := did + [Post(f, read, sk, answered)];
      sys := AfterPost(env, me, sys, f, read, sk, answered);
    }

    // ---- deposits ----

    /** A deposit row read without consistency: its fixed part is right, its status one the row has had, or the
        row is missed altogether. A call that runs the deposit alone, on fresh reads, sees the row as it is. */
    method GetDeposit(txid: Txid) returns (r: Option<DepositRow>)
      requires Valid()
      modifies this`faults
      ensures faults >= old(faults)
      ensures r.Some? ==> KnowsDeposit(sys, txid, r.value) && HasBeen(sys, txid, r.value.status)
      ensures faults == old(faults) || (Alone(env) && txid in sys.holder && sys.holder[txid] == me) ==>
        r == if txid in sys.db.deposits then Some(sys.db.deposits[txid]) else None
    {
      if txid !in sys.db.deposits {
        return None;
      }
      r := Some(sys.db.deposits[txid]);
      DepositHasBeen(env, sys, txid);
      if Alone(env) && txid in sys.holder && sys.holder[txid] == me {
        return;
      }
      var stale: bool := *;
      faults := if stale then faults + 1 else faults;
      if stale {
        var earlier: DepositStatus := *;
        r := if HasBeen(sys, txid, earlier) then Some(sys.db.deposits[txid].(status := earlier)) else None;
      }
    }

    method PutDepositIfAbsent(txid: Txid, row: DepositRow) returns (a: Answer)
      requires Valid() && row.status == Pending && txid.user == row.user && OwnsWallet(sys, row.user, Real, row.wallet)
      modifies `sys, `did, `tried, `faults
      ensures tried == old(tried) && faults == old(faults) + (if a.NoAnswer? then 1 else 0)
      ensures Valid() && Later(old(sys), sys)
      ensures a.Applied? ==>
          old(txid !in sys.db.deposits) && sys == AfterPutDeposit(old(sys), txid, row)
          && did == old(did) + [PutDeposit(txid, row)]
      ensures a.Refused? ==> txid in sys.db.deposits && sys == old(sys) && did == old(did)
      ensures a.NoAnswer? ==> did == old(did) || did == old(did) + [PutDeposit(txid, row)]
    {
      hide Reachable, TransactWrite, OwnsWallet;
      if * {
        faults := faults + 1;
        LaterRefl(sys);
        return NoAnswer;
      }
      PutIsTransaction(sys, txid, row);
      var refused := Refuses(PutDepositTx(txid, row));
      if refused {
        LaterRefl(sys);
        return Refused;
      }
      PutNow(txid, row);
      if * {
        faults := faults + 1;
        return NoAnswer;
      }
      a := Applied;
    }

    method PutNow(txid: Txid, row: DepositRow)
      requires Valid() && CanPutDeposit(sys, txid, row)
      modifies this`sys, this`did
      ensures Valid() && Later(old(sys), sys)
      ensures sys == AfterPutDeposit(old(sys), txid, row) && did == old(did) + [PutDeposit(txid, row)]
    {
      ReachStep(env, me, PutDeposit(txid, row), sys);
      PutGrows(sys, txid, row);
      did := did + [PutDeposit(txid, row)];
      sys := AfterPutDeposit(sys, txid, row);
    }

    /** A compare-and-set of a deposit's status. */
    method TransitionDepositStatus(txid: Txid, from: DepositStatus, to: DepositStatus) returns (a: Answer)
      requires Valid() && MayRun(env, me, sys, txid) && DepositMove(env, from, to)
      requires to == RefundPending ==> txid in sys.charges && sys.charges[txid].paid.Some?
      requires to == Refunded ==> txid in sys.refunded
      modifies `sys, `did, `tried, `faults
      ensures tried == old(tried) && faults == old(faults) + (if a.NoAnswer? then 1 else 0)
      ensures Valid() && Later(old(sys), sys) && sys.holder == old(sys.holder)
      ensures a.Applied? ==>
        && old(txid in sys.db.deposits && sys.db.deposits[txid].status == from)
        && sys == AfterMoveDeposit(old(sys), txid, from, to) && did == old(did) + [MoveDeposit(txid, from, to)]
      ensures a.Refused? ==>
          !(txid in sys.db.deposits && sys.db.deposits[txid].status == from) && sys == old(sys) && did == old(did)
      ensures a.NoAnswer? ==> did == old(did) || did == old(did) + [MoveDeposit(txid, from, to)]
    {
      hide Later, Reachable, TransactWrite;
      if * {
        faults := faults + 1;
        LaterRefl(sys);
        return NoAnswer;
      }
      MoveIsTransaction(sys, txid, from, to);
      var refused := Refuses(MoveDepositTx(txid, from, to));
      if refused {
        LaterRefl(sys);
        return Refused;
      }
      MoveNow(txid, from, to);
      if * {
        faults := faults + 1;
        return NoAnswer;
      }
      a := Applied;
    }

    method MoveNow(txid: Txid, from: DepositStatus, to: DepositStatus)
      requires Valid() && CanMoveDeposit(env, me, sys, txid, from, to)
      modifies this`sys, this`did
      ensures Valid() && Later(old(sys), sys)
      ensures sys == AfterMoveDeposit(old(sys), txid, from, to) && did == old(did) + [MoveDeposit(txid, from, to)]
    {
      ReachStep(env, me, MoveDeposit(txid, from, to), sys);
      MoveGrows(env, me, sys, txid, from, to);
      did := did + [MoveDeposit(txid, from, to)];
      sys := AfterMoveDeposit(sys, txid, from, to);
    }

    /** The charge as the rail reports it; a paid amount is final. */
    method QueryDeposit(txid: Txid) returns (r: Option<Charge>)
      requires Valid()
      modifies this`faults
      ensures faults >= old(faults)
      ensures r.Some? ==> txid in sys.charges && r.value == sys.charges[txid]
      ensures r.None? && txid in sys.charges ==> faults > old(faults)
    {
      var down: bool := *;
      faults := if down then faults + 1 else faults;
      if down || txid !in sys.charges {
        return None;
      }
      r := Some(sys.charges[txid]);
    }

    /** Asks the rail for the charge of a reserved deposit. */
    method OpenDeposit(txid: Txid, amount: nat) returns (r: Option<Charge>)
      requires Valid() && txid in sys.db.deposits && sys.db.deposits[txid].amount == amount
      modifies `sys, `did, `tried, `faults
      ensures Valid() && Later(old(sys), sys) && (txid, amount) in sys.chargeAsks && did == old(did) + [OpenCharge(txid, amount)]
      ensures tried == old(tried) && faults == old(faults) + (if r.None? then 1 else 0)
      ensures r.Some? ==> txid in sys.charges && r.value == sys.charges[txid]
    {
      ChargeAsked(env, me, sys, txid, amount);
      did := did + [OpenCharge(txid, amount)];
      sys := AfterOpenCharge(sys, txid, amount);
      var lost: bool := *;
      faults := if lost then faults + 1 else faults;
      if lost {
        return None;
      }
      r := Some(sys.charges[txid]);
    }

    /** Sends a refund request; success means the rail accepted a refund of this deposit. */
    method RefundDeposit(txid: Txid, amount: nat) returns (ok: bool)
      requires Valid() && CanAskRefund(env, me, sys, txid, amount)
      modifies `sys, `did, `tried, `faults
      ensures Valid() && Later(old(sys), sys) && KeptFor(env, me, old(sys), sys) && did == old(did) + [AskRefund(txid, amount)]
      ensures tried == old(tried) && faults == old(faults) + (if ok then 0 else 1)
      ensures ok ==> txid in sys.refunded
    {
      hide Later, Reachable, KeptFor;
      RefundAsked(env, me, sys, txid, amount);
      ghost var before := sys;
      did := did + [AskRefund(txid, amount)];
      sys := AfterAskRefund(sys, txid, amount);
      ghost var asked := sys;
      Pause();
      RelyTrans(env, me, before, asked, sys);
      ok := *;
      ok := ok && txid in sys.refunded;
      faults := if ok then faults else faults + 1; // the rail answered with an error, or its answer was lost
    }

    // ---- withdrawals ----

    method Now() returns (now: Time)
      ensures now == sys.clock
    {
      now := sys.clock;
    }

    /** A user's daily counters, read consistently. */
    method GetCounters(user: UserId) returns (prev: Option<Counters>)
      requires Valid()
      ensures prev == if user in sys.db.counters then Some(sys.db.counters[user]) else None
      ensures forall now :: sys.clock <= now ==> (prev.Some? ==> prev.value.day <= env.dayOf(now))
    {
      prev := if user in sys.db.counters then Some(sys.db.counters[user]) else None;
      if prev.Some? {
        CountersExact(env, sys, user);
      }
    }

    /** A withdrawal row, read consistently. */
    method GetWithdrawal(wid: WithdrawalId) returns (r: Option<WithdrawalRow>)
      ensures r == if wid in sys.db.withdrawals then Some(sys.db.withdrawals[wid]) else None
    {
      r := if wid in sys.db.withdrawals then Some(sys.db.withdrawals[wid]) else None;
    }

    /** Asks the rail for the payout. Only the call whose own debit was answered may ask, and only once. */
    method Payout(wid: WithdrawalId) returns (r: PayoutAnswer)
      requires Valid() && wid in sys.payer && sys.payer[wid] == me
      modifies `sys, `did, `tried, `faults, `heard
      ensures Valid() && Later(old(sys), sys) && did == old(did) + [AskPayout(wid)] && wid in sys.payoutAsks
      ensures PayoutTruth(sys, wid, r) && !r.TransferNotFound? && heard == old(heard) + [Heard(wid, r, sys)]
      ensures tried == old(tried) && faults == old(faults) + (if r.RailError? then 1 else 0)
    {
      hide Reachable;
      PayoutAsked(env, me, sys, wid);
      ghost var before := sys;
      did := did + [AskPayout(wid)];
      sys := AfterAskPayout(sys, wid);
      ghost var asked := sys;
      Pause();
      LaterTrans(before, asked, sys);
      var down: bool, noKey: bool := *, *;
      faults := if down then faults + 1 else faults;
      r := if down then RailError
           else if wid !in sys.payouts then TransferProcessing
           else match sys.payouts[wid].status
                case PayoutDone => TransferDone
                case PayoutProcessing => TransferProcessing
                case PayoutFailed => if noKey then KeyNotFound else TransferFailed;
      heard := heard + [Heard(wid, r, sys)];
    }

    /** Asks the rail what became of a payout; "no key" counts as failed, an unknown reference as not found. */
    method QueryPayout(wid: WithdrawalId) returns (r: PayoutAnswer)
      requires Valid()
      modifies `faults, `heard
      ensures PayoutTruth(sys, wid, r) && !r.KeyNotFound? && heard == old(heard) + [Heard(wid, r, sys)]
      ensures faults == old(faults) + (if r.RailError? then 1 else 0)
    {
      var down: bool := *;
      faults := if down then faults + 1 else faults;
      r := if down then RailError
           else if wid !in sys.payouts then TransferNotFound
           else match sys.payouts[wid].status
                case PayoutDone => TransferDone
                case PayoutProcessing => TransferProcessing
                case PayoutFailed => TransferFailed;
      heard := heard + [Heard(wid, r, sys)];
    }

    /** An unconditional write of a withdrawal's status. */
    method UpdateWithdrawal(wid: WithdrawalId, to: WithdrawalStatus, why: Evidence) returns (a: Answer)
      requires Valid() && CanSetWithdrawal(env, sys, wid, to, why)
      modifies `sys, `did, `tried, `faults
      ensures tried == old(tried) && faults == old(faults) + (if a.NoAnswer? then 1 else 0)
      ensures Valid() && Later(old(sys), sys) && !a.Refused?
      ensures a.Applied? ==> sys == AfterSetWithdrawal(old(sys), wid, to) && did == old(did) + [SetWithdrawal(wid, to, why)]
      ensures a.NoAnswer? ==>
        || (sys == old(sys) && did == old(did))
        || (sys == AfterSetWithdrawal(old(sys), wid, to) && did == old(did) + [SetWithdrawal(wid, to, why)])
    {
      var fault: bool, late: bool := *, *; // a failed write may still have taken effect
      faults := if fault then faults + 1 else faults;
      if fault && !late {
        LaterRefl(sys);
        a := NoAnswer;
      } else {
        SetNow(wid, to, why);
        a := if fault then NoAnswer else Applied;
      }
    }

    method SetNow(wid: WithdrawalId, to: WithdrawalStatus, why: Evidence)
      requires Valid() && CanSetWithdrawal(env, sys, wid, to, why)
      modifies this`sys, this`did
      ensures Valid() && Later(old(sys), sys)
      ensures sys == AfterSetWithdrawal(old(sys), wid, to) && did == old(did) + [SetWithdrawal(wid, to, why)]
    {
      ReachStep(env, me, SetWithdrawal(wid, to, why), sys);
      SetGrows(sys, wid, to);
      did := did + [SetWithdrawal(wid, to, why)];
      sys := AfterSetWithdrawal(sys, wid, to);
    }

    /** The reversed mark, with or without the daily slot. */
    method WriteReversed(wid: WithdrawalId, row: WithdrawalRow, slot: Option<Counters>) returns (a: Answer)
      requires Valid() && KnowsWithdrawal(sys, wid, row) && ReverseKey(wid) in sys.db.guards
      requires slot.Some? ==> slot.value.day == env.dayOf(row.createdAt)
      modifies `sys, `did, `tried, `faults
      ensures tried == old(tried) && faults == old(faults) + (if a.NoAnswer? then 1 else 0)
      ensures Valid() && Later(old(sys), sys)
      ensures a.Applied? ==>
        && CanMarkReversed(env, old(sys), wid, slot) && sys == AfterMarkReversed(old(sys), wid, slot)
            && did == old(did) + [MarkReversed(wid, slot)]
      ensures a.Refused? ==> !CanMarkReversed(env, old(sys), wid, slot) && sys == old(sys) && did == old(did)
      ensures a.NoAnswer? ==>
        || (sys == old(sys) && did == old(did))
        || (CanMarkReversed(env, old(sys), wid, slot) && sys == AfterMarkReversed(old(sys), wid, slot) && did == old(did) + [MarkReversed(wid, slot)])
    {
      hide Reachable, CanMarkReversed, MarkReversedTx, TransactWrite, MarkConditions;
      if * {
        faults := faults + 1;
        LaterRefl(sys);
        return NoAnswer;
      }
      MarkIsTransaction(sys, wid, row, slot);
      MarkIsAllowed(env, sys, wid, row, slot);
      var refused := Refuses(MarkReversedTx(wid, row, slot));
      if refused {
        LaterRefl(sys);
        return Refused;
      }
      MarkNow(wid, slot);
      if * {
        faults := faults + 1;
        return NoAnswer;
      }
      a := Applied;
    }

    method MarkNow(wid: WithdrawalId, slot: Option<Counters>)
      requires Valid() && CanMarkReversed(env, sys, wid, slot)
      modifies this`sys, this`did
      ensures Valid() && Later(old(sys), sys)
      ensures sys == AfterMarkReversed(old(sys), wid, slot) && did == old(did) + [MarkReversed(wid, slot)]
    {
      MarkStep(env, me, sys, wid, slot);
      did := did + [MarkReversed(wid, slot)];
      sys := AfterMarkReversed(sys, wid, slot);
    }

    // ---- holds and wallets ----

    /** A hold read without consistency: it may still look held after it was resolved. */
    method GetHold(id: HoldId) returns (r: Option<HoldRow>)
      requires Valid()
      modifies this`faults
      ensures faults >= old(faults)
      ensures r.Some? ==> KnowsHold(sys, id, r.value) && (r.value.status != Held ==> r.value == sys.db.holds[id])
      ensures faults == old(faults) ==> r == if id in sys.db.holds then Some(sys.db.holds[id]) else None
    {
      if id !in sys.db.holds {
        return None;
      }
      var missed: bool := *;
      faults := if missed then faults + 1 else faults;
      if missed {
        return None;
      }
      var stale: bool := *;
      faults := if stale then faults + 1 else faults;
      r := Some(if stale then sys.db.holds[id].(status := Held) else sys.db.holds[id]);
    }

    /** A marker read without consistency, then its wallet. */
    method LoadByMarker(user: UserId, kind: WalletType) returns (r: Option<WalletId>)
      requires Valid()
      modifies this`faults
      ensures faults >= old(faults)
      ensures r.Some? ==> OwnsWallet(sys, user, kind, r.value)
      ensures r.None? && Owner(user, kind) in sys.db.markers ==> faults > old(faults)
    {
      if Owner(user, kind) !in sys.db.markers {
        return None;
      }
      var missed: bool := *;
      faults := if missed then faults + 1 else faults;
      if missed {
        return None;
      }
      ReachableInv(env, sys);
      r := Some(sys.db.markers[Owner(user, kind)]);
    }

    /** A new wallet and its marker in one transaction, under an id never drawn before. */
    method CreateWallet(user: UserId, kind: WalletType) returns (a: Answer, id: WalletId)
      requires Valid()
      modifies `sys, `did, `tried, `faults
      ensures tried == old(tried) && faults == old(faults) + (if a.NoAnswer? then 1 else 0)
      ensures Valid() && Later(old(sys), sys) && sys.payer == old(sys.payer) && sys.holder == old(sys.holder)
      ensures did == old(did) || did == old(did) + [OpenWallet(user, kind, id, NO_OVERRIDES)]
      ensures a.Applied? ==> OwnsWallet(sys, user, kind, id)
      ensures a.Refused? ==> Owner(user, kind) in sys.db.markers
    {
      hide TransactWrite, OpenWalletTx, Reachable, Later;
      id := *;
      if KnownBefore(sys, id) {
        LaterRefl(sys); // a drawn id is new; were it not, the put would fail
        faults := faults + 1;
        return NoAnswer, id;
      }
      var fault: bool, late: bool := *, *; // a failed write may still have taken effect
      faults := if fault then faults + 1 else faults;
      var refused := Refuses(OpenWalletTx(user, kind, id));
      OpenStep(env, me, sys, user, kind, id);
      if refused || (fault && !late) {
        LaterRefl(sys);
        a := if fault then NoAnswer else Refused;
      } else {
        did := did + [OpenWallet(user, kind, id, NO_OVERRIDES)];
        sys := AfterOpenWallet(sys, user, kind, id, NO_OVERRIDES);
        a := if fault then NoAnswer else Applied;
      }
    }
  }

  /** A user's counters as they count on a day: what is stored for that day, zero otherwise. */
  function UsedOn(s: State, user: UserId, day: Day): Counters {
    if user in s.db.counters && s.db.counters[user].day == day then s.db.counters[user] else Counters(day, 0, 0, 0)
  }

  /** A state the system can have been in between two others: it can be reached, and nothing the earlier one had
      committed is missing from it, nor anything it had from the later one. */
  ghost predicate Within(env: Env, start: State, at: State, s: State) {
    Reachable(env, at) && Later(start, at) && Later(at, s)
  }

  lemma WithinWider(env: Env, start: State, from: State, at: State, to: State, s: State)
    requires Within(env, from, at, to) && Later(start, from) && Later(to, s)
    ensures Within(env, start, at, s)
  {
    LaterTrans(start, from, at);
    LaterTrans(at, to, s);
  }

  /** The deposits a call runs it still runs. */
  ghost predicate TokensKept(me: CallId, s: State, s': State) {
    forall txid :: txid in s.holder && s.holder[txid] == me ==> txid in s'.holder && s'.holder[txid] == me
  }

  /** Since then the call has at most created the user's wallet of that type. */
  ghost predicate OnlyOpened(user: UserId, kind: WalletType, from: Log, to: Log) {
    && (to.did == from.did || exists id :: to.did == from.did + [OpenWallet(user, kind, id, NO_OVERRIDES)])
    && to.tried == from.tried && to.heard == from.heard && to.faults >= from.faults
  }

  /** Statuses an earlier version of the row may have had. */
  predicate HasBeen(s: State, txid: Txid, status: DepositStatus) {
    match status
    case Confirmed => DepositKey(txid) in s.db.guards
    case RefundPending => txid in s.refunding
    case RefundFailed => txid in s.refunding
    case Refunded => txid in s.refunding && txid in s.refunded
    case RejectedCpf => false
    case Expired => false
    case _ => true
  }

  lemma RefundAsked(env: Env, me: CallId, s: State, txid: Txid, amount: nat)
    requires Reachable(env, s) && CanAskRefund(env, me, s, txid, amount)
    ensures Reachable(env, AfterAskRefund(s, txid, amount)) && Rely(env, me, s, AfterAskRefund(s, txid, amount))
  {
    hide CanAskRefund, Enabled, Reachable;
    ReachStep(env, me, AskRefund(txid, amount), s);
    RailGrows(s, AfterAskRefund(s, txid, amount));
  }

  lemma ChargeAsked(env: Env, me: CallId, s: State, txid: Txid, amount: nat)
    requires Reachable(env, s) && txid in s.db.deposits && s.db.deposits[txid].amount == amount
    ensures Reachable(env, AfterOpenCharge(s, txid, amount)) && Later(s, AfterOpenCharge(s, txid, amount))
  {
    ReachStep(env, me, OpenCharge(txid, amount), s);
    ChargeAnswersStay(s, txid, amount);
    RailGrows(s, AfterOpenCharge(s, txid, amount));
  }

  lemma ChargeAnswersStay(s: State, txid: Txid, amount: nat)
    ensures LaterRail(s, AfterOpenCharge(s, txid, amount))
  {
  }

  lemma PostStep(env: Env, me: CallId, s: State, f: Flow, read: Snapshot, sk: SortKey, answered: bool)
    requires Reachable(env, s) && CanPost(env, me, s, f, read, sk)
    ensures var s' := AfterPost(env, me, s, f, read, sk, answered); Reachable(env, s') && Later(s, s') && TokensKept(me, s, s')
  {
    ReachStep(env, me, Post(f, read, sk, answered), s);
    CommitGrows(env, me, s, f, read, sk, answered);
  }

  lemma MarkIsAllowed(env: Env, s: State, wid: WithdrawalId, row: WithdrawalRow, slot: Option<Counters>)
    requires KnowsWithdrawal(s, wid, row) && ReverseKey(wid) in s.db.guards
    requires slot.Some? ==> slot.value.day == env.dayOf(row.createdAt)
    ensures MarkConditions(s.db, wid, row, slot) <==> CanMarkReversed(env, s, wid, slot)
  {
  }

  lemma MarkStep(env: Env, me: CallId, s: State, wid: WithdrawalId, slot: Option<Counters>)
    requires Reachable(env, s) && CanMarkReversed(env, s, wid, slot)
    ensures Reachable(env, AfterMarkReversed(s, wid, slot)) && Later(s, AfterMarkReversed(s, wid, slot))
  {
    ReachStep(env, me, MarkReversed(wid, slot), s);
    MarkGrows(s, wid, slot);
  }

  lemma PayoutAsked(env: Env, me: CallId, s: State, wid: WithdrawalId)
    requires Reachable(env, s) && wid in s.payer && s.payer[wid] == me
    ensures Reachable(env, AfterAskPayout(s, wid)) && Later(s, AfterAskPayout(s, wid))
  {
    ReachStep(env, me, AskPayout(wid), s);
    RailGrows(s, AfterAskPayout(s, wid));
  }

  /** A creation under a new id is refused only because the owner already has the wallet. */
  lemma OpenStep(env: Env, me: CallId, s: State, user: UserId, kind: WalletType, id: WalletId)
    requires Reachable(env, s) && !KnownBefore(s, id)
    ensures TransactWrite(s.db, OpenWalletTx(user, kind, id)).ConditionFailed? <==> Owner(user, kind) in s.db.markers
    ensures Owner(user, kind) !in s.db.markers ==>
      var s' := AfterOpenWallet(s, user, kind, id, NO_OVERRIDES);
      Reachable(env, s') && Later(s, s') && OwnsWallet(s', user, kind, id) && TokensKept(me, s, s')
  {
    OpenIsTransaction(s, user, kind, id);
    if Owner(user, kind) !in s.db.markers {
      assert CanOpenWallet(s, user, kind, id);
      ReachStep(env, me, OpenWallet(user, kind, id, NO_OVERRIDES), s);
      ReachableInv(env, s);
      OpenGrows(s, user, kind, id, NO_OVERRIDES);
    }
  }

  /** The rail's own word about a payout is true when it says it, and final when it says done or failed. */
  ghost predicate PayoutTruth(s: State, wid: WithdrawalId, r: PayoutAnswer) {
    match r
    case TransferDone => wid in s.payouts && s.payouts[wid].status == PayoutDone
    case TransferFailed => wid in s.payouts && s.payouts[wid].status == PayoutFailed
    case KeyNotFound => wid in s.payouts && s.payouts[wid].status == PayoutFailed
    case TransferNotFound => wid !in s.payouts
    case TransferProcessing => wid in s.payouts ==> s.payouts[wid].status == PayoutProcessing
    case RailError => true
  }

  predicate KnownBefore(s: State, id: WalletId) {
    id in s.db.wallets || exists h | h in s.db.holds :: s.db.holds[h].wallet == id
  }

  lemma DepositHasBeen(env: Env, s: State, txid: Txid)
    requires Reachable(env, s) && txid in s.db.deposits
    ensures HasBeen(s, txid, s.db.deposits[txid].status)
  {
    ReachableInv(env, s);
    assert DepositOk(s, txid);
  }
}
