/** The reversal of a withdrawal, and the pass that settles the ones left in processing. */
module Reconcile {
  import opened Rows
  import opened Store
  import opened System
  import opened Ledger
  import opened Withdrawals
  import opened Growth
  import opened Runs
  import opened Theorems
  import opened Calls
  import opened Repository

  /** The counters that still hold a withdrawal's slot: the user's, while they are of its creation day. */
  function StoredSlot(env: Env, s: State, row: WithdrawalRow): Option<Counters> {
    if row.user in s.db.counters && s.db.counters[row.user].day == env.dayOf(row.createdAt) then Some(s.db.counters[row.user]) else None
  }

  /** The counters to give a withdrawal's slot back to: none once the day has moved on. */
  method ReleaseWithdrawalSlot(c: Call, row: WithdrawalRow) returns (slot: Option<Counters>)
    requires c.Valid()
    modifies c`faults
    ensures slot.Some? ==> slot.value.day == c.env.dayOf(row.createdAt)
    ensures c.faults >= old(c.faults)
    ensures c.faults == old(c.faults) ==> slot == StoredSlot(c.env, c.sys, row)
  {
    if * {
      c.faults := c.faults + 1;
      return None;
    }
    var prev := c.GetCounters(row.user);
    if prev.None? || prev.value.day != c.env.dayOf(row.createdAt) {
      return None;
    }
    slot := prev;
  }

  lemma MayReportFailure(env: Env, s: State, s': State, wid: WithdrawalId, row: WithdrawalRow, why: Evidence)
    requires !env.creditsSucceed && Later(s, s')
    requires KnowsWithdrawal(s, wid, row) && Proven(env, s, wid, row.createdAt, why)
    ensures KnowsWithdrawal(s', wid, row) && Proven(env, s', wid, row.createdAt, why)
    ensures CanSetWithdrawal(env, s', wid, ReversalFailed, why)
  {
    ProvenStays(env, s, s', wid, row.createdAt, why);
  }

  lemma ReversalKeepsItsHash(env: Env, s: State, wid: WithdrawalId, row: WithdrawalRow)
    requires Reachable(env, s) && KnowsWithdrawal(s, wid, row) && ReverseKey(wid) in s.db.guards
    ensures s.db.guards[ReverseKey(wid)].hash == ReqHash(ReversalRef(wid), row.amount)
  {
    ReachableInv(env, s);
    assert RowOk(s, wid);
  }

  /** The credit alone. It carries no counter write, so it is given up only on an access that failed or on a commit
      that was sent and refused. */
  method CreditBack(c: Call, wid: WithdrawalId, row: WithdrawalRow, why: Evidence) returns (ok: bool)
    requires c.Valid() && KnowsWithdrawal(c.sys, wid, row) && Proven(c.env, c.sys, wid, row.createdAt, why)
    modifies c`sys, c`did, c`tried, c`faults
    ensures c.Valid() && Later(old(c.sys), c.sys) && c.faults >= old(c.faults) && old(c.did) <= c.did && old(c.tried) <= c.tried
    ensures ok ==> ReverseKey(wid) in c.sys.db.guards
    ensures !ok && c.faults == old(c.faults) ==>
      c.tried == old(c.tried) + [Reverse(wid, row, why)] && MovedOn(old(c.sys), c.sys, row.wallet)
  {
    hide Beaten;
    ghost var start := c.sys;
    var o := Mutate(c, Reverse(wid, row, why));
    ghost var credited := c.sys;
    if o.Conflict? {
      ReversalKeepsItsHash(c.env, credited, wid, row);
      assert false;
    }
    c.Pause();
    LaterTrans(start, credited, c.sys);
    ok := o.Done? || o.Replayed?;
    if o.Failed? && c.faults == old(c.faults) {
      CreditLostRace(c.env, start, credited, c.sys, wid, row, why);
    }
  }

  /** Nothing but another entry on the wallet can refuse a credit that carries no rows. */
  lemma CreditLostRace(env: Env, start: State, s: State, s': State, wid: WithdrawalId, row: WithdrawalRow, why: Evidence)
    requires var m := MutationOf(env, Reverse(wid, row, why)); Beaten(env, start, s, m) && m.key !in s.db.guards
    requires Later(s, s')
    ensures MovedOn(start, s', row.wallet)
  {
    HistoryGrows(s, s', row.wallet);
    assert forall at: State :: SideConditions(at.db, MutationOf(env, Reverse(wid, row, why)));
  }

  /** How the slot of a reversed withdrawal was handled: read at one moment, and at a later one written back with the
      reversed mark, unless the row or the counters were not as read any more; then only the mark was set. */
  ghost predicate SlotHandledAt(env: Env, start: State, at: State, mid: State, s: State, wid: WithdrawalId, row: WithdrawalRow,
      steps: seq<Action>)
  {
    && Within(env, start, at, mid) && Within(env, at, mid, s)
    && steps == ReversedSteps(env, mid, wid, StoredSlot(env, at, row), steps != [])
  }

  ghost predicate SlotHandled(env: Env, start: State, s: State, wid: WithdrawalId, row: WithdrawalRow, steps: seq<Action>) {
    exists at, mid :: SlotHandledAt(env, start, at, mid, s, wid, row, steps)
  }

  /** The last of these steps handled the slot. */
  ghost predicate EndsWithSlot(env: Env, start: State, s: State, wid: WithdrawalId, row: WithdrawalRow, steps: seq<Action>) {
    exists n :: 0 <= n <= |steps| && SlotHandled(env, start, s, wid, row, steps[n..])
  }

  lemma EndsWithSlotWider(env: Env, start: State, from: State, s: State, wid: WithdrawalId, row: WithdrawalRow,
      before: seq<Action>, steps: seq<Action>)
    requires EndsWithSlot(env, from, s, wid, row, steps) && Later(start, from)
    ensures EndsWithSlot(env, start, s, wid, row, before + steps)
  {
    hide Later, Reachable, ReversedSteps;
    var n :| 0 <= n <= |steps| && SlotHandled(env, from, s, wid, row, steps[n..]);
    var at, mid :| SlotHandledAt(env, from, at, mid, s, wid, row, steps[n..]);
    LaterTrans(start, from, at);
    assert (before + steps)[|before| + n..] == steps[n..];
    assert SlotHandledAt(env, start, at, mid, s, wid, row, steps[n..]);
  }

  /** How a reversal ends where no access failed: the row is reversed and its slot handled, or the credit lost its
      wallet to another entry and the failure is on record. */
  ghost predicate ReversalEnded(env: Env, start: State, s: State, wid: WithdrawalId, row: WithdrawalRow, ok: bool, steps: seq<Action>) {
    && wid in s.db.withdrawals
    && if ok then s.db.withdrawals[wid].status == Reversed && EndsWithSlot(env, start, s, wid, row, steps)
       else s.db.withdrawals[wid].status == ReversalFailed && MovedOn(start, s, row.wallet)
  }

  lemma ReversalEndedWider(env: Env, start: State, from: State, s: State, wid: WithdrawalId, row: WithdrawalRow, ok: bool,
      before: seq<Action>, steps: seq<Action>)
    requires ReversalEnded(env, from, s, wid, row, ok, steps) && Later(start, from)
    ensures ReversalEnded(env, start, s, wid, row, ok, before + steps)
  {
    HistoryGrows(start, from, row.wallet);
    if ok {
      EndsWithSlotWider(env, start, from, s, wid, row, before, steps);
    }
  }

  /** The bookkeeping after the credit. Its own failure is logged, never reported. */
  method RecordReversal(c: Call, wid: WithdrawalId, row: WithdrawalRow)
    requires c.Valid() && KnowsWithdrawal(c.sys, wid, row) && ReverseKey(wid) in c.sys.db.guards
    modifies c`sys, c`did, c`tried, c`faults
    ensures c.Valid() && Later(old(c.sys), c.sys) && c.faults >= old(c.faults) && old(c.did) <= c.did && old(c.tried) <= c.tried
    ensures ReverseKey(wid) in c.sys.db.guards && wid in c.sys.db.withdrawals
    ensures c.faults == old(c.faults) ==> c.sys.db.withdrawals[wid].status == Reversed
    ensures c.faults == old(c.faults) ==> SlotHandled(c.env, old(c.sys), c.sys, wid, row, c.did[|old(c.did)|..])
  {
    hide Reachable, ReversedSteps, KeptFor;
    ghost var start := c.sys;
    var slot := ReleaseWithdrawalSlot(c, row);
    c.Pause();
    ghost var before := c.sys;
    var _ := MarkWithdrawalReversed(c, wid, row, slot);
    LaterTrans(start, before, c.sys);
    if c.faults == old(c.faults) {
      LaterRefl(start);
      LaterRefl(before);
      assert SlotHandledAt(c.env, start, start, before, c.sys, wid, row, c.did[|old(c.did)|..]);
    }
  }

  /** Credits a withdrawal back, money first: success means its one credit is in the ledger, whether or not the
      bookkeeping after it went through; and where no access failed, the bookkeeping is done too. */
  method ReverseOne(c: Call, wid: WithdrawalId, row: WithdrawalRow, why: Evidence) returns (ok: bool)
    requires c.Valid() && KnowsWithdrawal(c.sys, wid, row) && Proven(c.env, c.sys, wid, row.createdAt, why)
    modifies c`sys, c`did, c`tried, c`faults
    ensures c.Valid() && Later(old(c.sys), c.sys) && c.faults >= old(c.faults) && old(c.did) <= c.did && old(c.tried) <= c.tried
    ensures ok ==> ReverseKey(wid) in c.sys.db.guards
    ensures c.faults == old(c.faults) ==> ReversalEnded(c.env, old(c.sys), c.sys, wid, row, ok, c.did[|old(c.did)|..])
    ensures c.faults == old(c.faults) && !ok ==> c.tried == old(c.tried) + [Reverse(wid, row, why)]
  {
    hide Later, Reachable, SlotHandled, ReversalEnded, MovedOn;
    ghost var start, did := c.sys, c.did;
    ok := CreditBack(c, wid, row, why);
    ghost var before, credited := c.sys, c.did;
    MayReportFailure(c.env, start, before, wid, row, why);
    if ok {
      RecordReversal(c, wid, row);
      if c.faults == old(c.faults) {
        ReversedAndHandled(c.env, start, before, c.sys, wid, row, did, credited, c.did);
      }
    } else {
      var _ := c.UpdateWithdrawal(wid, ReversalFailed, why);
      if c.faults == old(c.faults) {
        FailureRecorded(c.env, start, before, c.sys, wid, row, c.did[|did|..]);
      }
    }
    LaterTrans(start, before, c.sys);
  }

  lemma ReversedAndHandled(env: Env, start: State, from: State, s: State, wid: WithdrawalId, row: WithdrawalRow,
      did: seq<Action>, credited: seq<Action>, did': seq<Action>)
    requires wid in s.db.withdrawals && s.db.withdrawals[wid].status == Reversed && Later(start, from)
    requires did <= credited <= did' && SlotHandled(env, from, s, wid, row, did'[|credited|..])
    ensures ReversalEnded(env, start, s, wid, row, true, did'[|did|..])
  {
    hide Later, SlotHandled;
    var first, last := credited[|did|..], did'[|credited|..];
    assert last[0..] == last;
    assert EndsWithSlot(env, from, s, wid, row, last);
    EndsWithSlotWider(env, start, from, s, wid, row, first, last);
    assert did'[|did|..] == first + last;
  }

  lemma FailureRecorded(env: Env, start: State, from: State, s: State, wid: WithdrawalId, row: WithdrawalRow, steps: seq<Action>)
    requires MovedOn(start, from, row.wallet) && Later(from, s)
    requires wid in s.db.withdrawals && s.db.withdrawals[wid].status == ReversalFailed
    ensures ReversalEnded(env, start, s, wid, row, false, steps)
  {
    HistoryGrows(from, s, row.wallet);
  }

  // ---- the pass ----

  datatype Fate = Left | Paid | Back | Alarm

  /** One listed withdrawal's turn: the state in which the rail answered, its answer, whether the row was then
      found older than the grace, what became of it, the state after it, and the steps and commits it took. */
  datatype Turn = Turn(at: State, heard: PayoutAnswer, aged: bool, fate: Fate, after: State, steps: seq<Action>, sent: seq<Flow>)

  ghost function Count(turns: seq<Turn>, f: Fate): nat {
    if turns == [] then 0 else Count(turns[..|turns| - 1], f) + (if turns[|turns| - 1].fate == f then 1 else 0)
  }

  lemma CountNext(turns: seq<Turn>, next: Turn, f: Fate)
    ensures Count(turns + [next], f) == Count(turns, f) + (if next.fate == f then 1 else 0)
  {
    assert (turns + [next])[..|turns|] == turns;
  }

  /** Everything a pass did is what its turns did, in order. */
  ghost function StepsOf(turns: seq<Turn>): seq<Action> {
    if turns == [] then [] else StepsOf(turns[..|turns| - 1]) + turns[|turns| - 1].steps
  }

  lemma StepsNext(turns: seq<Turn>, next: Turn)
    ensures StepsOf(turns + [next]) == StepsOf(turns) + next.steps
  {
    assert (turns + [next])[..|turns|] == turns;
  }

  /** A row counted as resolved was paid, and this turn wrote its completion and nothing else; one counted as reversed
      is credited back. */
  ghost predicate FateOk(wid: WithdrawalId, t: Turn) {
    && (t.fate == Paid ==>
          && wid in t.after.payouts && t.after.payouts[wid].status == PayoutDone
          && wid in t.after.db.withdrawals && t.after.db.withdrawals[wid].status == Completed
          && t.steps == [SetWithdrawal(wid, Completed, RailFailed)])
    && (t.fate == Back ==> ReverseKey(wid) in t.after.db.guards)
    && (t.fate == Left && !t.heard.TransferDone? ==> t.steps == [])
  }

  ghost predicate ReversalFits(env: Env, wid: WithdrawalId, row: WithdrawalRow, t: Turn) {
    && (t.fate == Back || t.fate == Alarm)
    && ReversalEnded(env, t.at, t.after, wid, row, t.fate == Back, t.steps)
    && (t.fate == Alarm ==> exists why :: t.sent == [Reverse(wid, row, why)])
  }

  /** What the pass makes of the rail's answer, where no access failed. */
  ghost predicate FateFits(env: Env, wid: WithdrawalId, row: WithdrawalRow, t: Turn) {
    match t.heard
    case TransferDone => t.fate == Paid
    case TransferFailed => ReversalFits(env, wid, row, t)
    case TransferNotFound => if t.aged then ReversalFits(env, wid, row, t) else t.fate == Left
    case TransferProcessing => t.fate == Left
    case _ => false
  }

  /** A turn taken between two states: the rail's answer was true when given, the age was judged after it, a
      payment or a credit it reports is there, and without a failed access the answer decided what was done. */
  ghost predicate TurnOk(env: Env, start: State, s: State, wid: WithdrawalId, row: WithdrawalRow, t: Turn, clean: bool) {
    && Later(start, t.at) && Later(t.at, t.after) && Later(t.after, s) && PayoutTruth(t.at, wid, t.heard)
    && (if t.aged then t.after.clock >= row.createdAt + PAYOUT_GRACE else t.at.clock < row.createdAt + PAYOUT_GRACE)
    && FateOk(wid, t) && (clean ==> FateFits(env, wid, row, t))
  }

  lemma TurnStays(env: Env, start: State, s: State, s': State, wid: WithdrawalId, row: WithdrawalRow, t: Turn, clean: bool, clean': bool)
    requires TurnOk(env, start, s, wid, row, t, clean) && Later(s, s') && (clean' ==> clean)
    ensures TurnOk(env, start, s', wid, row, t, clean')
  {
    LaterTrans(t.after, s, s');
  }

  lemma ClockRuns(s: State, s': State)
    requires Later(s, s')
    ensures s.clock <= s'.clock
  {
  }

  lemma KnowledgeStays(s: State, s': State, wid: WithdrawalId, row: WithdrawalRow)
    requires KnowsWithdrawal(s, wid, row) && Later(s, s')
    ensures KnowsWithdrawal(s', wid, row)
  {
  }

  lemma NotFoundIsProof(env: Env, s: State, s': State, wid: WithdrawalId, createdAt: Time)
    requires Later(s, s') && PayoutTruth(s, wid, TransferNotFound)
    requires s'.clock <= s.clock + env.latency && s'.clock >= createdAt + PAYOUT_GRACE
    ensures Proven(env, s', wid, createdAt, UnknownAt(s.clock, s'.clock))
  {
    if wid in s'.payouts {
      assert LaterPayout(s, s', wid);
    }
  }

  lemma RailWordStays(s: State, s': State, wid: WithdrawalId, r: PayoutAnswer)
    requires Later(s, s') && PayoutTruth(s, wid, r) && (r.TransferDone? || r.TransferFailed?)
    ensures PayoutTruth(s', wid, r)
  {
    assert LaterPayout(s, s', wid);
  }

  lemma StillProven(env: Env, s: State, s': State, wid: WithdrawalId, row: WithdrawalRow, why: Evidence)
    requires Later(s, s') && KnowsWithdrawal(s, wid, row) && Proven(env, s, wid, row.createdAt, why)
    ensures KnowsWithdrawal(s', wid, row) && Proven(env, s', wid, row.createdAt, why)
  {
    ProvenStays(env, s, s', wid, row.createdAt, why);
  }

  /** One listed withdrawal. The rail is asked first; "unknown" is believed only when the row, by a clock read
      after that answer, is older than the grace. */
  method ReconcileOne(c: Call, wid: WithdrawalId, row: WithdrawalRow) returns (fate: Fate, ghost turn: Turn)
    requires c.Valid() && KnowsWithdrawal(c.sys, wid, row)
    modifies c`sys, c`did, c`tried, c`faults, c`heard
    ensures c.Valid() && Later(old(c.sys), c.sys) && c.faults >= old(c.faults)
    ensures turn.fate == fate && TurnOk(c.env, old(c.sys), c.sys, wid, row, turn, c.faults == old(c.faults))
    ensures c.did == old(c.did) + turn.steps && c.tried == old(c.tried) + turn.sent
    ensures c.heard == old(c.heard) + [Heard(wid, turn.heard, turn.at)]
  {
    hide Later, Reachable, FateOk, FateFits, ReversalEnded;
    ghost var begun := c.sys;
    var res, asked, now;
    ghost var at;
    res, asked, now, at := AskRail(c, wid);
    ghost var before := c.sys;
    LaterTrans(begun, at, before);
    KnowledgeStays(begun, before, wid, row);
    fate := ActOn(c, wid, row, res, asked, now, at);
    ClockRuns(before, c.sys);
    turn := Turn(at, res, now >= row.createdAt + PAYOUT_GRACE, fate, c.sys, c.did[|old(c.did)|..], c.tried[|old(c.tried)|..]);
    LaterTrans(at, before, c.sys);
    LaterTrans(begun, at, c.sys);
    LaterRefl(c.sys);
  }

  /** The rail's answer, and then a clock reading within the promised latency of it. */
  method AskRail(c: Call, wid: WithdrawalId) returns (res: PayoutAnswer, asked: Time, now: Time, ghost at: State)
    requires c.Valid()
    modifies c`sys, c`faults, c`heard
    ensures c.Valid() && Reachable(c.env, at) && Later(old(c.sys), at) && Later(at, c.sys)
    ensures PayoutTruth(at, wid, res) && !res.KeyNotFound? && asked == at.clock <= now == c.sys.clock <= asked + c.env.latency
    ensures c.faults == old(c.faults) + (if res.RailError? then 1 else 0) && c.heard == old(c.heard) + [Heard(wid, res, at)]
  {
    c.Pause();
    at := c.sys;
    asked := c.sys.clock; // when the rail answered: the evidence remembers it, the code does not read it
    res := c.QueryPayout(wid);
    c.PauseBriefly(asked);
    now := c.Now();
  }

  /** What a turn does before its row has its fate: the answer and the age decide it. */
  method ActOn(c: Call, wid: WithdrawalId, row: WithdrawalRow, res: PayoutAnswer, asked: Time, now: Time,
      ghost at: State) returns (fate: Fate)
    requires c.Valid() && KnowsWithdrawal(c.sys, wid, row)
    requires Later(at, c.sys) && PayoutTruth(at, wid, res) && !res.KeyNotFound?
    requires asked == at.clock && now == c.sys.clock <= asked + c.env.latency
    modifies c`sys, c`did, c`tried, c`faults
    ensures c.Valid() && Later(old(c.sys), c.sys) && c.faults >= old(c.faults) && old(c.did) <= c.did && old(c.tried) <= c.tried
    ensures var t := Turn(at, res, now >= row.createdAt + PAYOUT_GRACE, fate, c.sys, c.did[|old(c.did)|..], c.tried[|old(c.tried)|..]);
            FateOk(wid, t) && (c.faults == old(c.faults) && !res.RailError? ==> FateFits(c.env, wid, row, t))
  {
    hide Later, Reachable, ReversalEnded;
    ghost var before := c.sys;
    LaterRefl(before);
    match res
    case TransferDone =>
      RailWordStays(at, before, wid, res);
      fate := MarkCompleted(c, wid);
    case TransferFailed =>
      RailWordStays(at, before, wid, res);
      fate := ReverseLocked(c, wid, row, RailFailed, at);
    case TransferNotFound =>
      if now < row.createdAt + PAYOUT_GRACE {
        return Left;
      }
      NotFoundIsProof(c.env, at, before, wid, row.createdAt);
      fate := ReverseLocked(c, wid, row, UnknownAt(asked, now), at);
    case _ => fate := Left;
  }

  method MarkCompleted(c: Call, wid: WithdrawalId) returns (fate: Fate)
    requires c.Valid() && wid in c.sys.db.withdrawals && PayoutTruth(c.sys, wid, TransferDone)
    modifies c`sys, c`did, c`tried, c`faults
    ensures c.Valid() && Later(old(c.sys), c.sys) && PayoutTruth(c.sys, wid, TransferDone) && (fate == Paid || fate == Left)
    ensures c.faults == old(c.faults) + (if fate == Paid then 0 else 1) && c.tried == old(c.tried) && old(c.did) <= c.did
    ensures fate == Paid ==> wid in c.sys.db.withdrawals && c.sys.db.withdrawals[wid].status == Completed
    ensures fate == Paid ==> c.did == old(c.did) + [SetWithdrawal(wid, Completed, RailFailed)]
  {
    ghost var start := c.sys;
    var a := c.UpdateWithdrawal(wid, Completed, RailFailed);
    fate := if a.Applied? then Paid else Left;
    RailWordStays(start, c.sys, wid, TransferDone);
  }

  /** The reversal under the wallet's lock, when it can be had. The lock orders calls; nothing here is proved
      from it. */
  method ReverseLocked(c: Call, wid: WithdrawalId, row: WithdrawalRow, why: Evidence, ghost at: State) returns (fate: Fate)
    requires c.Valid() && KnowsWithdrawal(c.sys, wid, row) && Proven(c.env, c.sys, wid, row.createdAt, why) && Later(at, c.sys)
    modifies c`sys, c`did, c`tried, c`faults
    ensures c.Valid() && Later(old(c.sys), c.sys) && c.faults >= old(c.faults) && old(c.did) <= c.did && old(c.tried) <= c.tried
    ensures (fate == Back || fate == Alarm) && (fate == Back ==> ReverseKey(wid) in c.sys.db.guards)
    ensures c.faults == old(c.faults) ==>
      && ReversalEnded(c.env, at, c.sys, wid, row, fate == Back, c.did[|old(c.did)|..])
      && (fate == Alarm ==> c.tried == old(c.tried) + [Reverse(wid, row, why)])
  {
    hide Later, Reachable, ReversalEnded;
    ghost var start := c.sys;
    c.Pause();
    ghost var before := c.sys;
    LaterTrans(at, start, before);
    if * {
      c.faults := c.faults + 1;
      return Alarm;
    }
    StillProven(c.env, start, before, wid, row, why);
    var ok := ReverseOne(c, wid, row, why);
    LaterTrans(start, before, c.sys);
    if c.faults == old(c.faults) {
      ghost var steps := c.did[|old(c.did)|..];
      ReversalEndedWider(c.env, at, before, c.sys, wid, row, ok, [], steps);
      assert [] + steps == steps;
    }
    fate := if ok then Back else Alarm;
  }

  ghost predicate ListKnown(s: State, ws: seq<(WithdrawalId, WithdrawalRow)>) {
    forall i :: 0 <= i < |ws| ==> KnowsWithdrawal(s, ws[i].0, ws[i].1)
  }

  /** Every listed withdrawal so far has had its turn. */
  ghost predicate TurnsOk(env: Env, start: State, s: State, ws: seq<(WithdrawalId, WithdrawalRow)>, turns: seq<Turn>, clean: bool) {
    |turns| <= |ws| && forall i :: 0 <= i < |turns| ==> TurnOk(env, start, s, ws[i].0, ws[i].1, turns[i], clean)
  }

  ghost predicate Tallied(turns: seq<Turn>, resolved: nat, reversed: nat, alarmed: nat) {
    resolved == Count(turns, Paid) && reversed == Count(turns, Back) && alarmed == Count(turns, Alarm)
  }

  lemma TurnsNext(env: Env, start: State, s: State, s': State, ws: seq<(WithdrawalId, WithdrawalRow)>, turns: seq<Turn>, t: Turn,
      clean: bool, now: bool, clean': bool)
    requires Later(start, s) && Later(s, s') && TurnsOk(env, start, s, ws, turns, clean) && |turns| < |ws|
    requires TurnOk(env, s, s', ws[|turns|].0, ws[|turns|].1, t, now) && (clean' ==> clean && now)
    ensures TurnsOk(env, start, s', ws, turns + [t], clean')
  {
    LaterTrans(start, s, t.at);
    forall i | 0 <= i < |turns| ensures TurnOk(env, start, s', ws[i].0, ws[i].1, turns[i], clean') {
      TurnStays(env, start, s, s', ws[i].0, ws[i].1, turns[i], clean, clean');
    }
  }

  lemma ListStays(s: State, s': State, ws: seq<(WithdrawalId, WithdrawalRow)>)
    requires ListKnown(s, ws) && Later(s, s')
    ensures ListKnown(s', ws)
  {
    forall i | 0 <= i < |ws| ensures KnowsWithdrawal(s', ws[i].0, ws[i].1) {
      assert KnowsWithdrawal(s, ws[i].0, ws[i].1);
    }
  }

  lemma TallyNext(turns: seq<Turn>, t: Turn, resolved: nat, reversed: nat, alarmed: nat)
    requires Tallied(turns, resolved, reversed, alarmed)
    ensures Tallied(turns + [t], resolved + (if t.fate == Paid then 1 else 0), reversed + (if t.fate == Back then 1 else 0),
                    alarmed + (if t.fate == Alarm then 1 else 0))
  {
    CountNext(turns, t, Paid);
    CountNext(turns, t, Back);
    CountNext(turns, t, Alarm);
  }

  /** A pass over a list of processing withdrawals, which may be stale. Every listed row has its turn; for what the pass
      counts as resolved the rail has paid and the completion is written, what it counts as reversed is credited back.
      The pass does what its turns do, and nothing else. */
  method ReconcileWithdrawals(c: Call, ws: seq<(WithdrawalId, WithdrawalRow)>)
    returns (resolved: nat, reversed: nat, alarmed: nat, ghost turns: seq<Turn>)
    requires c.Valid() && ListKnown(c.sys, ws)
    modifies c`sys, c`did, c`tried, c`faults, c`heard
    ensures c.Valid() && Later(old(c.sys), c.sys) && c.faults >= old(c.faults)
    ensures |turns| == |ws| && TurnsOk(c.env, old(c.sys), c.sys, ws, turns, c.faults == old(c.faults))
    ensures Tallied(turns, resolved, reversed, alarmed) && c.did == old(c.did) + StepsOf(turns)
  {
    hide Later, Reachable, TurnOk;
    resolved, reversed, alarmed, turns := 0, 0, 0, [];
    ghost var begun, first := c.sys, c.faults;
    LaterRefl(begun);
    for i := 0 to |ws|
      invariant c.Valid() && Later(begun, c.sys) && ListKnown(c.sys, ws) && c.faults >= first
      invariant |turns| == i && TurnsOk(c.env, begun, c.sys, ws, turns, c.faults == first) && Tallied(turns, resolved, reversed, alarmed)
      invariant c.did == old(c.did) + StepsOf(turns)
    {
      ghost var start, faults, clean := c.sys, c.faults, c.faults == first;
      assert KnowsWithdrawal(c.sys, ws[i].0, ws[i].1);
      var fate, turn := ReconcileOne(c, ws[i].0, ws[i].1);
      LaterTrans(begun, start, c.sys);
      ListStays(start, c.sys, ws);
      TurnsNext(c.env, begun, start, c.sys, ws, turns, turn, clean, c.faults == faults, c.faults == first);
      TallyNext(turns, turn, resolved, reversed, alarmed);
      StepsNext(turns, turn);
      turns := turns + [turn];
      if fate == Paid {
        resolved := resolved + 1;
      } else if fate == Back {
        reversed := reversed + 1;
      } else if fate == Alarm {
        alarmed := alarmed + 1;
      }
    }
  }
}
