/** The holds a game places on real money, their release and cash-out, and the two plain debits and credits. */
module HoldFlow {
  import opened Rows
  import opened Store
  import opened System
  import opened Ledger
  import opened Withdrawals
  import opened Books
  import opened Holds
  import opened Growth
  import opened Runs
  import opened Theorems
  import opened Calls
  import opened Repository

  const MAX_CASHOUT_HOLDS := 20

  datatype Result =
    | NotActivated | SelfExcluded | NotFound | Forbidden | Unavailable | BadRequest
    | Hold(hold: Option<HoldRow>, replayed: bool)
    | Answer(outcome: Outcome)

  /** A hold this call placed is the debit asked for; one that was there already under the same id is for the same
      amount and table, where it could be read. */
  ghost predicate PlacedOk(s: State, user: UserId, amount: nat, table: string, id: HoldId, r: Result, clean: bool) {
    r.Hold? ==>
      && Reservation(s, id)
      && (!r.replayed ==> EntryOf(s, HoldKey(id)).amount == -(amount as int) && r.hold.Some? && r.hold.value.user == user)
      && (r.hold.Some? ==> r.hold.value.amount == amount && r.hold.value.table == table)
      && (clean ==> r.hold.Some?)
  }

  /** Why a hold was not placed: its id stands for another amount or table, or its debit was sent and refused. */
  ghost predicate NotPlacedOk(env: Env, start: State, s: State, w: WalletId, user: UserId, amount: nat, table: string, id: HoldId,
      o: Outcome, from: Log, to: Log)
  {
    var row := HoldRow(w, user, amount, table, Held);
    match o
    case Conflict => HoldTaken(s, id, row) && to.did == from.did
    case Insufficient =>
      && to.did == from.did
      && (to.faults == from.faults ==>
            && to.tried == from.tried + [PlaceHold(id, row)] && HoldKey(id) !in s.db.guards
            && Beaten(env, start, s, MutationOf(env, PlaceHold(id, row))))
    case Failed => to.faults > from.faults
    case _ => false
  }

  /** Reserves an amount of the real wallet under a hold id derived from the request. */
  method HoldGame(c: Call, user: UserId, amount: nat, table: string, idem: string, excluded: bool)
    returns (r: Result, ghost w: WalletId)
    requires c.Valid()
    modifies c`sys, c`did, c`tried, c`faults
    ensures c.Valid() && Later(old(c.sys), c.sys)
    ensures r.NotActivated? || r.SelfExcluded? ==> c.did == old(c.did) && c.tried == old(c.tried)
    ensures r.NotActivated? || r.SelfExcluded? || r.Hold? || r.Answer?
    ensures r.SelfExcluded? || r.Hold? || r.Answer? ==> OwnsWallet(c.sys, user, Real, w)
    ensures (r.SelfExcluded? ==> excluded) && (r.Hold? || r.Answer? ==> !excluded)
    ensures PlacedOk(c.sys, user, amount, table, HoldId(user, idem), r, c.faults == old(c.faults))
    ensures r.Answer? ==>
      NotPlacedOk(c.env, old(c.sys), c.sys, w, user, amount, table, HoldId(user, idem), r.outcome, old(c.Record()), c.Record())
    ensures c.faults >= old(c.faults)
    ensures c.faults == old(c.faults) ==>
      && (r.NotActivated? <==> old(Owner(user, Real) !in c.sys.db.markers)) && (r.SelfExcluded? <==> !r.NotActivated? && excluded)
  {
    hide Later, Reachable, OwnsWallet, PlacedOk, NotPlacedOk;
    LaterRefl(c.sys);
    w := "";
    var found := c.LoadByMarker(user, Real);
    if found.None? {
      NothingPlaced(c.sys, user, amount, table, HoldId(user, idem), NotActivated);
      r := NotActivated;
      return;
    }
    w := found.value;
    if excluded {
      NothingPlaced(c.sys, user, amount, table, HoldId(user, idem), SelfExcluded);
      r := SelfExcluded;
      return;
    }
    ghost var before, clean := c.Record(), c.faults == old(c.faults);
    r := HoldOn(c, found.value, user, amount, table, idem);
    PlacedOkWeaker(c.sys, user, amount, table, HoldId(user, idem), r, c.faults == before.faults, c.faults == old(c.faults));
    if r.Answer? {
      NotPlacedWeaker(c.env, old(c.sys), c.sys, w, user, amount, table, HoldId(user, idem), r.outcome, old(c.Record()), before, c.Record());
    }
  }

  lemma NothingPlaced(s: State, user: UserId, amount: nat, table: string, id: HoldId, r: Result)
    requires !r.Hold?
    ensures forall clean :: PlacedOk(s, user, amount, table, id, r, clean)
  {
  }

  lemma PlacedOkWeaker(s: State, user: UserId, amount: nat, table: string, id: HoldId, r: Result, clean: bool, clean': bool)
    requires PlacedOk(s, user, amount, table, id, r, clean) && (clean' ==> clean)
    ensures PlacedOk(s, user, amount, table, id, r, clean')
  {
  }

  lemma NotPlacedWeaker(env: Env, start: State, s: State, w: WalletId, user: UserId, amount: nat, table: string, id: HoldId,
      o: Outcome, from: Log, from1: Log, to: Log)
    requires NotPlacedOk(env, start, s, w, user, amount, table, id, o, from1, to)
    requires from1.did == from.did && from1.tried == from.tried && from.faults <= from1.faults <= to.faults
    ensures NotPlacedOk(env, start, s, w, user, amount, table, id, o, from, to)
  {
    hide Beaten, MutationOf;
  }

  method HoldOn(c: Call, w: WalletId, user: UserId, amount: nat, table: string, idem: string) returns (r: Result)
    requires c.Valid() && OwnsWallet(c.sys, user, Real, w)
    modifies c`sys, c`did, c`tried, c`faults
    ensures c.Valid() && Later(old(c.sys), c.sys) && OwnsWallet(c.sys, user, Real, w)
    ensures PlacedOk(c.sys, user, amount, table, HoldId(user, idem), r, c.faults == old(c.faults))
    ensures r.Hold? || r.Answer?
    ensures r.Answer? ==>
      NotPlacedOk(c.env, old(c.sys), c.sys, w, user, amount, table, HoldId(user, idem), r.outcome, old(c.Record()), c.Record())
    ensures c.faults >= old(c.faults)
  {
    hide Later, Reachable, Beaten, MutationOf, OwnsWallet, GuardOk;
    ghost var start := c.sys;
    c.Pause();
    ghost var before := c.sys;
    var id, row := HoldId(user, idem), HoldRow(w, user, amount, table, Held);
    StillOwns(start, before, user, Real, w);
    var h, o := CreateHold(c, id, row);
    LaterTrans(start, before, c.sys);
    StillOwns(before, c.sys, user, Real, w);
    if h.Resolved? {
      r := Hold(h.hold, h.replayed);
    } else {
      if o.Insufficient? && c.faults == old(c.faults) {
        LaterRefl(c.sys);
        BeatenWider(c.env, start, before, c.sys, c.sys, MutationOf(c.env, PlaceHold(id, row)));
      }
      r := Answer(o);
    }
  }

  lemma StillOwns(s: State, s': State, user: UserId, kind: WalletType, w: WalletId)
    requires OwnsWallet(s, user, kind, w) && Later(s, s')
    ensures OwnsWallet(s', user, kind, w)
  {
  }

  /** A hold answered for is resolved and the user's: by this call's own commit, or by whoever came first. */
  ghost predicate ResolvedOk(s: State, user: UserId, id: HoldId, r: Result, from: Log, to: Log) {
    r.Hold? ==>
      && id in s.db.holds && s.db.holds[id].status != Held && s.db.holds[id].user == user
      && (if r.replayed then forall i :: |from.did| <= i < |to.did| ==> to.did[i].OpenWallet?
          else |to.did| > |from.did| && Releases(to.did[|to.did| - 1], id))
  }

  predicate Releases(a: Action, id: HoldId) { a.Post? && a.flow.ReleaseHold? && a.flow.id == id && a.answered }

  /** Why a release was given up where no access failed: it was sent, the hold is still held, and another entry was
      committed on the user's wallet meanwhile. */
  ghost predicate GivenUpOk(start: State, s: State, user: UserId, id: HoldId, r: Result, from: Log, to: Log) {
    r.Answer? && to.faults == from.faults ==>
      && |to.tried| == |from.tried| + 1 && to.tried[|from.tried|].ReleaseHold? && to.tried[|from.tried|].id == id
      && id in s.db.holds && s.db.holds[id].status == Held
      && Owner(user, Real) in s.db.markers && MovedOn(start, s, s.db.markers[Owner(user, Real)])
  }

  /** Gives a hold back to its owner's real wallet. A hold answered for is resolved; releasing it again changes
      nothing. */
  method ReleaseHold(c: Call, user: UserId, id: HoldId) returns (r: Result)
    requires c.Valid()
    modifies c`sys, c`did, c`tried, c`faults
    ensures c.Valid() && Later(old(c.sys), c.sys) && old(c.did) <= c.did && old(c.tried) <= c.tried
    ensures ResolvedOk(c.sys, user, id, r, old(c.Record()), c.Record())
    ensures GivenUpOk(old(c.sys), c.sys, user, id, r, old(c.Record()), c.Record())
    ensures r.NotFound? || r.Forbidden? ==> c.did == old(c.did)
    ensures r.NotFound? || r.Forbidden? || r.Unavailable? || r.Hold? || r.Answer?
    ensures c.faults >= old(c.faults)
    ensures c.faults == old(c.faults) ==>
      && !r.Unavailable? && (r.NotFound? <==> old(id !in c.sys.db.holds))
      && (r.Forbidden? <==> old(id in c.sys.db.holds && c.sys.db.holds[id].user != user))
  {
    hide Later, Reachable, MovedOn;
    LaterRefl(c.sys);
    ghost var start := c.sys;
    var h := c.GetHold(id);
    if h.None? {
      return NotFound;
    }
    if h.value.user != user {
      return Forbidden;
    }
    if h.value.status != Held {
      return Hold(h, true);
    }
    r := ReleaseHeld(c, user, id);
  }

  method ReleaseHeld(c: Call, user: UserId, id: HoldId) returns (r: Result)
    requires c.Valid() && id in c.sys.db.holds && c.sys.db.holds[id].user == user
    modifies c`sys, c`did, c`tried, c`faults
    ensures c.Valid() && Later(old(c.sys), c.sys) && old(c.did) <= c.did && old(c.tried) <= c.tried
    ensures r.Hold? || r.Unavailable? || r.Answer?
    ensures c.faults >= old(c.faults) && (c.faults == old(c.faults) ==> !r.Unavailable?)
    ensures ResolvedOk(c.sys, user, id, r, old(c.Record()), c.Record())
    ensures GivenUpOk(old(c.sys), c.sys, user, id, r, old(c.Record()), c.Record())
  {
    hide Later, Reachable, MovedOn, OwnsWallet, KeptFor;
    ghost var start := c.sys;
    c.Pause();
    ghost var before := c.sys;
    HoldOwned(start, before, user, id);
    var target := EnsureWallet(c, user, Real);
    LaterTrans(start, before, c.sys);
    if target.None? {
      return Unavailable;
    }
    before := c.sys;
    HoldOwned(start, before, user, id);
    ghost var ready := c.Record();
    r := ReleaseTo(c, user, id, target.value);
    LaterTrans(start, before, c.sys);
    OwnerOf(before, c.sys, user, target.value);
    HistoryGrows(start, before, target.value);
    ReleaseWider(start, before, c.sys, user, id, target.value, r, old(c.Record()), ready, c.Record());
  }

  lemma HoldOwned(s: State, s': State, user: UserId, id: HoldId)
    requires Later(s, s') && id in s.db.holds && s.db.holds[id].user == user
    ensures id in s'.db.holds && s'.db.holds[id].user == user
  {
  }

  lemma OwnerOf(s: State, s': State, user: UserId, w: WalletId)
    requires OwnsWallet(s, user, Real, w) && Later(s, s')
    ensures Owner(user, Real) in s'.db.markers && s'.db.markers[Owner(user, Real)] == w
  {
  }

  lemma ReleaseWider(start: State, from: State, s: State, user: UserId, id: HoldId, w: WalletId, r: Result, log: Log, ready: Log, to: Log)
    requires OnlyOpened(user, Real, log, ready) && ready.did <= to.did && ready.faults <= to.faults
    requires ResolvedOk(s, user, id, r, ready, to) && GivenUpOk(from, s, user, id, r, ready, to)
    requires HistoryOf(start, w) <= HistoryOf(from, w) && Owner(user, Real) in s.db.markers && s.db.markers[Owner(user, Real)] == w
    ensures ResolvedOk(s, user, id, r, log, to) && GivenUpOk(start, s, user, id, r, log, to)
  {
    if r.Hold? && r.replayed {
      forall i | |log.did| <= i < |to.did| ensures to.did[i].OpenWallet? {
        if i < |ready.did| {
          assert to.did[i] == ready.did[i];
        }
      }
    }
  }

  method ReleaseTo(c: Call, user: UserId, id: HoldId, target: WalletId) returns (r: Result)
    requires c.Valid() && id in c.sys.db.holds && c.sys.db.holds[id].user == user && OwnsWallet(c.sys, user, Real, target)
    modifies c`sys, c`did, c`tried, c`faults
    ensures c.Valid() && Later(old(c.sys), c.sys) && old(c.did) <= c.did && old(c.tried) <= c.tried
    ensures r.Hold? || r.Unavailable? || r.Answer?
    ensures c.faults >= old(c.faults) && (c.faults == old(c.faults) ==> !r.Unavailable?)
    ensures ResolvedOk(c.sys, user, id, r, old(c.Record()), c.Record())
    ensures GivenUpOk(old(c.sys), c.sys, user, id, r, old(c.Record()), c.Record())
  {
    hide Later, Reachable, MutationOf, MovedOn;
    ghost var start := c.sys;
    c.Pause();
    ghost var before := c.sys;
    HoldOwned(start, before, user, id);
    StillOwns(start, before, user, Real, target);
    var h := c.GetHold(id);
    if h.None? {
      return Unavailable;
    }
    if h.value.status != Held {
      return Hold(h, true);
    }
    var result := ReleaseHoldAtomic(c, id, h.value, target);
    LaterTrans(start, before, c.sys);
    HoldOwned(before, c.sys, user, id);
    OwnerOf(before, c.sys, user, target);
    RaceWider(start, before, c.sys, target);
    r := match result
      case Resolved(hold, replayed) => Hold(hold, replayed)
      case HoldConflict => Answer(Conflict)
      case HoldFailed => Answer(Failed);
  }

  lemma RaceWider(start: State, from: State, s: State, w: WalletId)
    requires Later(start, from)
    ensures MovedOn(from, s, w) ==> MovedOn(start, s, w)
  {
    HistoryGrows(start, from, w);
  }

  // ---- cash-out ----

  /** What the loop has established about the first n listed holds. */
  ghost predicate Checked(s: State, user: UserId, ids: seq<HoldId>, n: nat, seen: set<HoldId>, reserved: nat) {
    && n <= |ids| && Distinct(ids[..n])
    && (forall id :: id in seen <==> id in ids[..n])
    && (forall id :: id in ids[..n] ==> id in s.db.holds && s.db.holds[id].user == user)
    && reserved == Reserved(s.db.holds, ids[..n])
  }

  lemma CheckedStays(s: State, s': State, user: UserId, ids: seq<HoldId>, n: nat, seen: set<HoldId>, reserved: nat)
    requires Checked(s, user, ids, n, seen, reserved) && Later(s, s')
    ensures Checked(s', user, ids, n, seen, reserved)
  {
    ReservedStays(s.db.holds, s'.db.holds, ids[..n]);
  }

  lemma CheckedNext(s: State, user: UserId, ids: seq<HoldId>, n: nat, seen: set<HoldId>, reserved: nat)
    requires Checked(s, user, ids, n, seen, reserved) && n < |ids| && ids[n] !in seen
    requires ids[n] in s.db.holds && s.db.holds[ids[n]].user == user
    ensures Checked(s, user, ids, n + 1, seen + {ids[n]}, reserved + s.db.holds[ids[n]].amount)
  {
    var before, after := ids[..n], ids[..n + 1];
    assert after == before + [ids[n]] && after[..n] == before;
    forall i, j | 0 <= i < j < |after| ensures after[i] != after[j] {
      if j == n {
        assert before[i] in before;
      } else {
        assert before[i] != before[j];
      }
    }
  }

  lemma SeenTwice(ids: seq<HoldId>, i: nat)
    requires i < |ids| && ids[i] in ids[..i]
    ensures !Distinct(ids)
  {
    var j :| 0 <= j < i && ids[..i][j] == ids[i];
    assert ids[j] == ids[i];
  }

  /** Where no access failed, the holds looked at were held at this table when they were. */
  ghost predicate Available(start: State, s: State, table: string, ids: seq<HoldId>, n: nat)
    requires n <= |ids|
  {
    forall id :: id in ids[..n] ==>
      id in s.db.holds && s.db.holds[id].table == table && (id in start.db.holds ==> start.db.holds[id].status == Held)
  }

  lemma AvailableStays(start: State, s: State, s': State, table: string, ids: seq<HoldId>, n: nat)
    requires n <= |ids| && Available(start, s, table, ids, n) && Later(s, s')
    ensures Available(start, s', table, ids, n)
  {
  }

  lemma AvailableNext(start: State, s: State, table: string, ids: seq<HoldId>, n: nat)
    requires n < |ids| && Available(start, s, table, ids, n) && Later(start, s)
    requires ids[n] in s.db.holds && s.db.holds[ids[n]].table == table && s.db.holds[ids[n]].status == Held
    ensures Available(start, s, table, ids, n + 1)
  {
    assert ids[..n + 1] == ids[..n] + [ids[n]];
  }

  /** Some listed hold is not the user's, or not there. */
  ghost predicate NotTheirs(s: State, user: UserId, ids: seq<HoldId>) {
    exists id :: id in ids && (id in s.db.holds ==> s.db.holds[id].user != user)
  }

  /** Some listed hold is resolved, or was placed at another table. */
  ghost predicate NotAvailable(s: State, table: string, ids: seq<HoldId>) {
    exists id :: id in ids && id in s.db.holds && (s.db.holds[id].status != Held || s.db.holds[id].table != table)
  }

  /** Looks at every listed hold: each once, each the caller's, each still held at this table; adds up what they
      reserved. */
  method CheckHolds(c: Call, user: UserId, table: string, ids: seq<HoldId>) returns (refusal: Option<Result>, reserved: nat)
    requires c.Valid()
    modifies c`sys, c`faults
    ensures c.Valid() && Later(old(c.sys), c.sys) && c.faults >= old(c.faults)
    ensures refusal.Some? ==> refusal.value in {BadRequest, Forbidden, Answer(Conflict)}
    ensures refusal == Some(BadRequest) ==> !Distinct(ids)
    ensures refusal == Some(Forbidden) && c.faults == old(c.faults) ==> NotTheirs(c.sys, user, ids)
    ensures refusal == Some(Answer(Conflict)) && c.faults == old(c.faults) ==> NotAvailable(c.sys, table, ids)
    ensures refusal.None? ==> exists seen :: Checked(c.sys, user, ids, |ids|, seen, reserved)
    ensures refusal.None? && c.faults == old(c.faults) ==> Available(old(c.sys), c.sys, table, ids, |ids|)
  {
    hide Later, Reachable, Checked, Available;
    var seen: set<HoldId> := {};
    reserved := 0;
    ghost var start := c.sys;
    LaterRefl(start);
    NothingChecked(start, user, table, ids);
    for i := 0 to |ids|
      invariant c.Valid() && Later(start, c.sys) && Checked(c.sys, user, ids, i, seen, reserved) && c.faults >= old(c.faults)
      invariant c.faults == old(c.faults) ==> Available(start, c.sys, table, ids, i)
    {
      CheckedSeen(c.sys, user, ids, i, seen, reserved);
      assert ids[i] in ids;
      if ids[i] in seen {
        SeenTwice(ids, i);
        return Some(BadRequest), reserved;
      }
      ghost var before := c.sys;
      c.Pause();
      LaterTrans(start, before, c.sys);
      CheckedStays(before, c.sys, user, ids, i, seen, reserved);
      var h := c.GetHold(ids[i]);
      if h.None? || h.value.user != user {
        return Some(Forbidden), reserved;
      }
      if h.value.status != Held || h.value.table != table {
        return Some(Answer(Conflict)), reserved;
      }
      CheckedNext(c.sys, user, ids, i, seen, reserved);
      if c.faults == old(c.faults) {
        AvailableStays(start, before, c.sys, table, ids, i);
        AvailableNext(start, c.sys, table, ids, i);
      }
      seen := seen + {ids[i]};
      reserved := reserved + h.value.amount;
    }
    refusal := None;
  }

  lemma NothingChecked(s: State, user: UserId, table: string, ids: seq<HoldId>)
    ensures Checked(s, user, ids, 0, {}, 0) && Available(s, s, table, ids, 0)
  {
  }

  lemma CheckedSeen(s: State, user: UserId, ids: seq<HoldId>, n: nat, seen: set<HoldId>, reserved: nat)
    requires Checked(s, user, ids, n, seen, reserved)
    ensures n <= |ids| && forall id :: id in seen <==> id in ids[..n]
  {
  }

  /** What a cash-out that was sent reports: the credit it asked for, an earlier one of the same request, another request
      under the same key, or, where no access failed, a commit that was refused. */
  ghost predicate CashoutOk(env: Env, start: State, s: State, f: Flow, o: Outcome, from: Log, to: Log)
    requires f.Cashout?
  {
    && Reported(s, MutationOf(env, f), o) && Acted(f, from.did, to.did, o)
    && (to.faults == from.faults ==> Explained(env, start, s, MutationOf(env, f), o) && (o.Failed? ==> to.tried == from.tried + [f]))
  }

  /** Why a cash-out ended without a commit being sent. */
  ghost predicate CashoutRefused(start: State, s: State, user: UserId, amount: nat, table: string, ids: seq<HoldId>, r: Result,
      clean: bool)
  {
    match r
    case NotActivated => clean ==> Owner(user, Real) !in start.db.markers
    case BadRequest => |ids| > MAX_CASHOUT_HOLDS || !Distinct(ids)
        || ((forall id :: id in ids ==> id in s.db.holds) && amount > Reserved(s.db.holds, ids))
    case Forbidden => clean ==> NotTheirs(s, user, ids)
    case Answer(o) => o == Conflict && (clean ==> NotAvailable(s, table, ids))
    case _ => false
  }

  /** A cash-out may be sent: at most twenty distinct holds of the user, together no less than the amount, and where no
      access failed each held at this table when it was looked at. */
  ghost predicate CashoutFits(start: State, s: State, user: UserId, amount: nat, table: string, ids: seq<HoldId>, clean: bool) {
    && |ids| <= MAX_CASHOUT_HOLDS && Distinct(ids)
    && (forall id :: id in ids ==> id in s.db.holds && s.db.holds[id].user == user)
    && amount <= Reserved(s.db.holds, ids)
    && (clean ==> Available(start, s, table, ids, |ids|))
  }

  /** Credits at most what the listed holds reserved, and settles them all in the same commit. `sent` is the flow it
      committed or tried to. */
  method CashoutGame(c: Call, user: UserId, amount: nat, table: string, ids: seq<HoldId>, idem: string)
    returns (r: Result, ghost sent: Option<Flow>)
    requires c.Valid()
    modifies c`sys, c`did, c`tried, c`faults
    ensures c.Valid() && Later(old(c.sys), c.sys) && c.faults >= old(c.faults)
    ensures sent.None? ==> c.did == old(c.did) && c.tried == old(c.tried)
    ensures sent.None? ==> CashoutRefused(old(c.sys), c.sys, user, amount, table, ids, r, c.faults == old(c.faults))
    ensures sent.Some? ==>
      && r.Answer? && sent.value.Cashout? && Known(c.env, c.sys, sent.value)
      && sent.value == Cashout(user, idem, sent.value.wallet, amount, table, ids)
      && CashoutOk(c.env, old(c.sys), c.sys, sent.value, r.outcome, old(c.Record()), c.Record())
      && CashoutFits(old(c.sys), c.sys, user, amount, table, ids, c.faults == old(c.faults))
    ensures r.Answer? && r.outcome.Done? ==> r.outcome.entry.amount == amount && r.outcome.entry.wallet == sent.value.wallet
    ensures sent.Some? && (r.outcome.Done? || r.outcome.Replayed? || r.outcome.Conflict?) ==>
      && CashoutKey(user, idem) in c.sys.db.guards
      && (r.outcome.Conflict? <==> c.sys.db.guards[CashoutKey(user, idem)].hash != ReqHash(CashoutRef(table, ids), amount))
  {
    hide Later, Reachable, Available, Beaten, Known, OwnsWallet, MutationOf, GuardOk;
    LaterRefl(c.sys);
    sent := None;
    ghost var start := c.sys;
    var w := c.LoadByMarker(user, Real);
    if w.None? {
      r := NotActivated;
      return;
    }
    if |ids| > MAX_CASHOUT_HOLDS {
      r := BadRequest;
      return;
    }
    var refusal, reserved := CheckHolds(c, user, table, ids);
    if refusal.Some? {
      r := refusal.value;
      return;
    }
    assert ids[..|ids|] == ids;
    if amount > reserved {
      r := BadRequest;
      return;
    }
    ghost var before := c.sys;
    StillOwns(start, before, user, Real, w.value);
    var o := SettleHolds(c, Cashout(user, idem, w.value, amount, table, ids), reserved, start, old(c.Record()));
    LaterTrans(start, before, c.sys);
    sent := Some(Cashout(user, idem, w.value, amount, table, ids));
    CashoutCredits(c.env, sent.value);
    r := Answer(o);
  }

  method SettleHolds(c: Call, f: Flow, ghost reserved: nat, ghost start: State, ghost from: Log) returns (o: Outcome)
    requires c.Valid() && f.Cashout? && OwnsWallet(c.sys, f.user, Real, f.wallet) && f.amount <= reserved
    requires exists seen :: Checked(c.sys, f.user, f.ids, |f.ids|, seen, reserved)
    requires |f.ids| <= MAX_CASHOUT_HOLDS && Reachable(c.env, start) && Later(start, c.sys)
    requires from.did == c.did && from.tried == c.tried && from.faults <= c.faults
    requires c.faults == from.faults ==> Available(start, c.sys, f.table, f.ids, |f.ids|)
    modifies c`sys, c`did, c`tried, c`faults
    ensures c.Valid() && Later(old(c.sys), c.sys) && Known(c.env, c.sys, f) && c.faults >= old(c.faults)
    ensures CashoutOk(c.env, start, c.sys, f, o, from, c.Record())
    ensures CashoutFits(start, c.sys, f.user, f.amount, f.table, f.ids, c.faults == from.faults)
  {
    hide Later, Reachable, Available, Beaten, MutationOf, Known;
    ghost var before := c.sys;
    HoldsChecked(c.env, before, f, reserved);
    o := Mutate(c, f);
    KnownStays(c.env, before, c.sys, f);
    CashoutKnown(c.env, c.sys, f);
    CashoutCredits(c.env, f);
    if c.faults == from.faults {
      AvailableStays(start, before, c.sys, f.table, f.ids, |f.ids|);
      ExplainedWider(c.env, start, before, c.sys, MutationOf(c.env, f), o, true);
    }
  }

  lemma HoldsChecked(env: Env, s: State, f: Flow, reserved: nat)
    requires f.Cashout? && OwnsWallet(s, f.user, Real, f.wallet) && f.amount <= reserved
    requires exists seen :: Checked(s, f.user, f.ids, |f.ids|, seen, reserved)
    ensures Known(env, s, f)
  {
    var seen :| Checked(s, f.user, f.ids, |f.ids|, seen, reserved);
    assert f.ids[..|f.ids|] == f.ids;
  }

  lemma CashoutKnown(env: Env, s: State, f: Flow)
    requires f.Cashout? && Known(env, s, f)
    ensures Distinct(f.ids) && (forall id :: id in f.ids ==> id in s.db.holds && s.db.holds[id].user == f.user)
    ensures f.amount <= Reserved(s.db.holds, f.ids)
  {
  }

  lemma CashoutCredits(env: Env, f: Flow)
    requires f.Cashout?
    ensures var m := MutationOf(env, f);
            && m.credit && m.amount == f.amount && m.wallet == f.wallet
            && m.key == CashoutKey(f.user, f.idem) && m.hash == ReqHash(CashoutRef(f.table, f.ids), f.amount)
  {
  }

  // ---- plain debits and credits ----

  /** What a balance change without rows reports. Where no access failed it was given up only when it was sent and
      refused: a debit because the wallet held less, or anything because another entry came first. */
  ghost predicate PlainOk(env: Env, start: State, s: State, f: Flow, o: Outcome, from: Log, to: Log) {
    var m := MutationOf(env, f);
    && Reported(s, m, o) && Acted(f, from.did, to.did, o)
    && (to.faults == from.faults && (o.Failed? || o.Insufficient?) ==>
          && to.tried == from.tried + [f] && m.key !in s.db.guards && (o.Failed? ==> m.credit)
          && (MovedOn(start, s, m.wallet) || (!m.credit && m.amount > Holding(start, m.wallet))))
  }

  lemma PlainlyBeaten(env: Env, start: State, s: State, f: Flow)
    requires f.DebitReal? || f.MoveSandbox?
    requires Beaten(env, start, s, MutationOf(env, f)) && MutationOf(env, f).key !in s.db.guards
    ensures var m := MutationOf(env, f); MovedOn(start, s, m.wallet) || (!m.credit && m.amount > Holding(start, m.wallet))
  {
    hide Later, Reachable, MovedOn;
    assert forall at: State :: SideConditions(at.db, MutationOf(env, f));
  }

  method MutatePlain(c: Call, f: Flow, ghost start: State) returns (o: Outcome)
    requires c.Valid() && (f.DebitReal? || f.MoveSandbox?) && Known(c.env, c.sys, f)
    requires Reachable(c.env, start) && Later(start, c.sys)
    modifies c`sys, c`did, c`tried, c`faults
    ensures c.Valid() && Later(start, c.sys) && Later(old(c.sys), c.sys) && c.faults >= old(c.faults)
    ensures PlainOk(c.env, start, c.sys, f, o, old(c.Record()), c.Record())
  {
    hide Later, Reachable, Beaten, MutationOf, Known, MovedOn, Holding;
    ghost var before := c.sys;
    o := Mutate(c, f);
    LaterTrans(start, before, c.sys);
    if c.faults == old(c.faults) {
      ExplainedWider(c.env, start, before, c.sys, MutationOf(c.env, f), o, true);
      if o.Failed? || o.Insufficient? {
        PlainlyBeaten(c.env, start, c.sys, f);
      }
    }
  }

  /** Debits the real wallet for an authorized service, once per request key. `ready` is the call's record once the
      wallet is there. */
  method DebitReal(c: Call, user: UserId, amount: nat, idem: string, reason: string)
    returns (r: Result, ghost w: WalletId, ghost ready: Log)
    requires c.Valid()
    modifies c`sys, c`did, c`tried, c`faults
    ensures c.Valid() && Later(old(c.sys), c.sys)
    ensures OnlyOpened(user, Real, old(c.Record()), ready) && c.faults >= ready.faults
    ensures r.Unavailable? || r.Answer?
    ensures r.Unavailable? ==> c.Record() == ready && c.faults > old(c.faults)
    ensures r.Answer? ==>
      && OwnsWallet(c.sys, user, Real, w)
      && PlainOk(c.env, old(c.sys), c.sys, Flow.DebitReal(user, idem, w, amount, reason), r.outcome, ready, c.Record())
    ensures r.Answer? && (r.outcome.Done? || r.outcome.Replayed?) ==>
      && BillingKey(user, idem) in c.sys.db.guards
          && c.sys.db.guards[BillingKey(user, idem)].hash == ReqHash(Text(reason), amount)
      && GuardOk(c.sys, BillingKey(user, idem)) && r.outcome.entry == EntryOf(c.sys, BillingKey(user, idem))
    ensures r.Answer? && r.outcome.Done? ==> r.outcome.entry.amount == -(amount as int) && r.outcome.entry.wallet == w
    ensures r.Answer? && r.outcome.Conflict? ==>
      BillingKey(user, idem) in c.sys.db.guards && c.sys.db.guards[BillingKey(user, idem)].hash != ReqHash(Text(reason), amount)
  {
    hide Later, Reachable, OwnsWallet, MovedOn, Holding, GuardOk;
    ghost var start := c.sys;
    w := "";
    var found := EnsureWallet(c, user, Real);
    ready := c.Record();
    if found.None? {
      r := Unavailable;
      return;
    }
    w := found.value;
    ghost var before := c.sys;
    var o := MutatePlain(c, Flow.DebitReal(user, idem, found.value, amount, reason), start);
    StillOwns(before, c.sys, user, Real, w);
    r := Answer(o);
  }

  /** Moves sandbox credits, once per request key. */
  method SandboxOp(c: Call, credit: bool, user: UserId, amount: nat, idem: string, reason: string)
    returns (r: Result, ghost w: WalletId, ghost ready: Log)
    requires c.Valid()
    modifies c`sys, c`did, c`tried, c`faults
    ensures c.Valid() && Later(old(c.sys), c.sys)
    ensures OnlyOpened(user, Sandbox, old(c.Record()), ready) && c.faults >= ready.faults
    ensures r.Unavailable? || r.Answer?
    ensures r.Unavailable? ==> c.Record() == ready && c.faults > old(c.faults)
    ensures r.Answer? ==>
      && OwnsWallet(c.sys, user, Sandbox, w)
      && PlainOk(c.env, old(c.sys), c.sys, MoveSandbox(credit, user, idem, w, amount, reason), r.outcome, ready, c.Record())
    ensures r.Answer? && (r.outcome.Done? || r.outcome.Replayed?) ==>
      && SandboxKey(credit, user, idem) in c.sys.db.guards
          && c.sys.db.guards[SandboxKey(credit, user, idem)].hash == ReqHash(Text(reason), amount)
      && GuardOk(c.sys, SandboxKey(credit, user, idem)) && r.outcome.entry == EntryOf(c.sys, SandboxKey(credit, user, idem))
    ensures r.Answer? && r.outcome.Done? ==>
      r.outcome.entry.amount == (if credit then amount else -(amount as int)) && r.outcome.entry.wallet == w
    ensures r.Answer? && r.outcome.Conflict? ==>
      && SandboxKey(credit, user, idem) in c.sys.db.guards
      && c.sys.db.guards[SandboxKey(credit, user, idem)].hash != ReqHash(Text(reason), amount)
  {
    hide Later, Reachable, OwnsWallet, MovedOn, Holding, GuardOk;
    ghost var start := c.sys;
    w := "";
    var found := EnsureWallet(c, user, Sandbox);
    ready := c.Record();
    if found.None? {
      r := Unavailable;
      return;
    }
    w := found.value;
    ghost var before := c.sys;
    OwnedMayMove(c.env, before, credit, user, idem, w, amount, reason);
    var o := MutatePlain(c, MoveSandbox(credit, user, idem, found.value, amount, reason), start);
    StillOwns(before, c.sys, user, Sandbox, w);
    r := Answer(o);
  }

  lemma OwnedMayMove(env: Env, s: State, credit: bool, user: UserId, idem: string, w: WalletId, amount: nat, reason: string)
    requires OwnsWallet(s, user, Sandbox, w)
    ensures Known(env, s, MoveSandbox(credit, user, idem, w, amount, reason))
  {
  }
}
