/** The erasure of an account: identities are copied to retention, then stripped from the operational rows,
    then the profile goes; a self-exclusion is carried over first. Any number of purges run at once, crash
    and start again. */
module Erasure {
  import opened Rows

  datatype RowId = DepositOf(txid: Txid) | WithdrawalOf(wid: WithdrawalId)

  const SECOND: nat := 1_000_000_000

  /** When a self-exclusion ends: at a time, never, or at something that does not parse. */
  datatype End = At(time: Time) | Indefinite | Unparsable

  datatype Carried = Carried(end: End, ttl: nat)

  /** - rewrites: a second, different payer identity may be written on a row;
      - indexCaughtUp: a purge lists a user's rows only once the index shows what has been written on them;
      - owner: whose row it is; cpfHash: the account's CPF hash, if it ever gave a CPF;
      - inFiveYears: the retention horizon from a given time. */
  datatype Config = Config(rewrites: bool, indexCaughtUp: bool, owner: RowId -> UserId, cpfHash: UserId -> Option<string>,
    inFiveYears: Time -> Time)

  /** A purge that began: whose, what the rows carried then, and how many strips there had been. */
  datatype Begun = Begun(user: UserId, identity: map<RowId, Option<string>>, strips: nat)

  /** What a purge listed of its user's deposits or withdrawals: the rows it was shown an identity on. */
  datatype Listing = Listing(purge: Begun, deposits: bool, rows: set<RowId>)

  datatype State = State(
    clock: Time,
    identity: map<RowId, Option<string>>,      // payer identity or PIX key on the row now
    retained: map<(UserId, RowId), string>,    // the retention table
    had: set<(RowId, string)>,                 // every identity a row ever carried
    strips: seq<RowId>,                        // in order
    exclusion: map<UserId, End>,               // profiles that hold a self-exclusion
    stored: map<string, Carried>,              // exclusions carried over, by CPF hash
    carries: set<(string, Time)>,              // every carry that succeeded, with its expiry
    erased: set<(UserId, End, Time)>,          // exclusions erased with their profile, and the purge's clock
    // purges
    begun: set<Begun>,
    listings: set<Listing>,
    done: set<Begun>)                          // answered as done

  /** Whether an exclusion outlives its account, and until when. */
  function CarriedSelfExclusion(cfg: Config, end: End, now: Time): Option<Time> {
    match end
    case Indefinite => Some(cfg.inFiveYears(now))
    case Unparsable => Some(cfg.inFiveYears(now))
    case At(time) => if now < time then Some(time) else None
  }

  function InSeconds(t: Time): nat { t / SECOND }

  /** The longer of the stored exclusion and the new one, judged in whole seconds. */
  function PutCarried(stored: map<string, Carried>, hash: string, end: End, expires: Time): map<string, Carried> {
    if hash !in stored || stored[hash].ttl < InSeconds(expires) then stored[hash := Carried(end, InSeconds(expires))] else stored
  }

  function GetCarried(stored: map<string, Carried>, hash: string, now: Time): Option<End> {
    if hash in stored && InSeconds(now) < stored[hash].ttl then Some(stored[hash].end) else None
  }

  datatype Action =
    | Tick(time: Time)
    | AddRow(row: RowId, first: Option<string>)
    | Identify(row: RowId, identity: string)
    | Exclude(user: UserId, end: End)
    | Retain(row: RowId, identity: string)
    | Strip(row: RowId)
    | Carry(user: UserId, now: Time)
    | EraseProfile(user: UserId, now: Time)
    | Expire(hash: string)
    | Begin(user: UserId)
    | List(purge: Begun, deposits: bool, rows: set<RowId>)
    | Finish(purge: Begun)

  /** What a purge knows when it erases a profile: its exclusion needs no carry, or has nothing to key it on, or
      was carried. */
  ghost predicate MayErase(cfg: Config, s: State, user: UserId, now: Time) {
    user in s.exclusion ==>
      var expires := CarriedSelfExclusion(cfg, s.exclusion[user], now);
      expires.Some? && cfg.cpfHash(user).Some? ==> (cfg.cpfHash(user).value, expires.value) in s.carries
  }

  predicate OfKind(cfg: Config, user: UserId, deposits: bool, row: RowId) {
    cfg.owner(row) == user && row.DepositOf? == deposits
  }

  ghost predicate StrippedSince(from: nat, s: State, row: RowId) {
    exists i :: from <= i < |s.strips| && s.strips[i] == row
  }

  /** What the index may show: rows of the user, each on account of an identity it has had. Once it has caught up, no
      row that carries one is missing. */
  ghost predicate CanList(cfg: Config, s: State, purge: Begun, deposits: bool, rows: set<RowId>) {
    && purge in s.begun
    && (forall row :: row in rows ==> OfKind(cfg, purge.user, deposits, row) && exists p :: (row, p) in s.had)
    && (cfg.indexCaughtUp ==>
          forall row :: row in s.identity && OfKind(cfg, purge.user, deposits, row) && s.identity[row].Some? ==> row in rows)
  }

  /** The purge has stripped whatever it listed of one kind. */
  ghost predicate Worked(s: State, purge: Begun, deposits: bool) {
    exists l :: l in s.listings && l.purge == purge && l.deposits == deposits
      && forall row :: row in l.rows ==> StrippedSince(purge.strips, s, row)
  }

  ghost predicate CanFinish(s: State, purge: Begun) {
    purge in s.begun && purge.user !in s.exclusion && Worked(s, purge, true) && Worked(s, purge, false)
  }

  ghost predicate Enabled(cfg: Config, a: Action, s: State) {
    match a
    case Tick(time) => s.clock <= time
    case AddRow(row, _) => row !in s.identity
    case Identify(row, p) => row in s.identity && (cfg.rewrites || forall q :: (row, q) in s.had ==> q == p)
    case Exclude(user, _) => user !in s.exclusion && forall e :: e in s.erased ==> e.0 != user
    case Retain(row, p) => (row, p) in s.had
    case Strip(row) => row in s.identity && (cfg.owner(row), row) in s.retained
    case Carry(user, now) => now <= s.clock && user in s.exclusion && cfg.cpfHash(user).Some?
        && CarriedSelfExclusion(cfg, s.exclusion[user], now).Some?
    case EraseProfile(user, now) => now <= s.clock && MayErase(cfg, s, user, now)
    case Expire(hash) => hash in s.stored && s.stored[hash].ttl <= InSeconds(s.clock)
    case Begin(_) => true
    case List(purge, deposits, rows) => CanList(cfg, s, purge, deposits, rows)
    case Finish(purge) => CanFinish(s, purge)
  }

  function AfterAddRow(s: State, row: RowId, p: Option<string>): State {
    s.(identity := s.identity[row := p], had := if p.Some? then s.had + {(row, p.value)} else s.had)
  }

  function AfterIdentify(s: State, row: RowId, p: string): State {
    s.(identity := s.identity[row := Some(p)], had := s.had + {(row, p)})
  }

  /** Write-once: a second copy of the same row is not written. */
  function AfterRetain(cfg: Config, s: State, row: RowId, p: string): State {
    if (cfg.owner(row), row) in s.retained then s else s.(retained := s.retained[(cfg.owner(row), row) := p])
  }

  function AfterStrip(s: State, row: RowId): State {
    s.(identity := s.identity[row := None], strips := s.strips + [row])
  }

  function AfterCarry(s: State, hash: string, end: End, expires: Time): State {
    s.(stored := PutCarried(s.stored, hash, end, expires), carries := s.carries + {(hash, expires)})
  }

  function AfterErase(s: State, user: UserId, now: Time): State {
    s.(exclusion := s.exclusion - {user}, erased := if user in s.exclusion then s.erased + {(user, s.exclusion[user], now)} else s.erased)
  }

  function Started(s: State, user: UserId): Begun { Begun(user, s.identity, |s.strips|) }

  function AfterBegin(s: State, user: UserId): State { s.(begun := s.begun + {Started(s, user)}) }

  function AfterList(s: State, purge: Begun, deposits: bool, rows: set<RowId>): State {
    s.(listings := s.listings + {Listing(purge, deposits, rows)})
  }

  ghost function Effect(cfg: Config, a: Action, s: State): State
    requires Enabled(cfg, a, s)
  {
    match a
    case Tick(time) => s.(clock := time)
    case AddRow(row, p) => AfterAddRow(s, row, p)
    case Identify(row, p) => AfterIdentify(s, row, p)
    case Exclude(user, end) => s.(exclusion := s.exclusion[user := end])
    case Retain(row, p) => AfterRetain(cfg, s, row, p)
    case Strip(row) => AfterStrip(s, row)
    case Carry(user, now) =>
      AfterCarry(s, cfg.cpfHash(user).value, s.exclusion[user], CarriedSelfExclusion(cfg, s.exclusion[user], now).value)
    case EraseProfile(user, now) => AfterErase(s, user, now)
    case Expire(hash) => s.(stored := s.stored - {hash})
    case Begin(user) => AfterBegin(s, user)
    case List(purge, deposits, rows) => AfterList(s, purge, deposits, rows)
    case Finish(purge) => s.(done := s.done + {purge})
  }

  ghost predicate Init(s: State) {
    && s.identity == map[] && s.retained == map[] && s.had == {} && s.strips == []
    && s.exclusion == map[] && s.stored == map[] && s.carries == {} && s.erased == {}
    && s.begun == {} && s.listings == {} && s.done == {}
  }

  ghost predicate IsRun(cfg: Config, actions: seq<Action>, states: seq<State>) {
    && |states| == |actions| + 1 && Init(states[0])
    && forall i :: 0 <= i < |actions| ==>
        Enabled(cfg, actions[i], states[i]) && states[i + 1] == Effect(cfg, actions[i], states[i])
  }

  ghost predicate Reachable(cfg: Config, s: State) {
    exists actions, states :: IsRun(cfg, actions, states) && states[|actions|] == s
  }

  lemma ReachInit(cfg: Config, s: State)
    requires Init(s)
    ensures Reachable(cfg, s)
  {
    assert IsRun(cfg, [], [s]);
  }

  lemma ReachStep(cfg: Config, a: Action, s: State)
    requires Reachable(cfg, s) && Enabled(cfg, a, s)
    ensures Reachable(cfg, Effect(cfg, a, s))
  {
    var actions, states :| IsRun(cfg, actions, states) && states[|actions|] == s;
    var actions', states' := actions + [a], states + [Effect(cfg, a, s)];
    forall i | 0 <= i < |actions'| ensures Enabled(cfg, actions'[i], states'[i])
        && states'[i + 1] == Effect(cfg, actions'[i], states'[i]) {
      if i < |actions| {
        assert actions'[i] == actions[i] && states'[i] == states[i] && states'[i + 1] == states[i + 1];
      }
    }
    assert IsRun(cfg, actions', states');
  }

  // ---- identities ----

  ghost predicate Kept(cfg: Config, s: State, row: RowId, p: string) {
    (row in s.identity && s.identity[row] == Some(p))
        || ((cfg.owner(row), row) in s.retained && s.retained[(cfg.owner(row), row)] == p)
  }

  /** No identity a row ever carried is lost: it is still on the row, or its full copy is in retention. */
  ghost predicate NothingLost(cfg: Config, s: State) {
    forall row, p :: (row, p) in s.had ==> Kept(cfg, s, row, p)
  }

  ghost predicate Recorded(cfg: Config, s: State) {
    && (forall row, p :: (row, p) in s.had ==> row in s.identity)
    && (forall row :: row in s.identity && s.identity[row].Some? ==> (row, s.identity[row].value) in s.had)
    && (forall k :: k in s.retained ==> k.0 == cfg.owner(k.1) && (k.1, s.retained[k]) in s.had)
    && (forall row :: row in s.strips ==> row in s.identity && (cfg.owner(row), row) in s.retained)
  }

  /** No row ever carried two different identities. */
  ghost predicate OneIdentity(s: State) {
    forall row, p, q :: (row, p) in s.had && (row, q) in s.had ==> p == q
  }

  ghost predicate IdentityInv(cfg: Config, s: State) {
    Recorded(cfg, s) && (!cfg.rewrites ==> OneIdentity(s) && NothingLost(cfg, s))
  }

  lemma RecordedPreserved(cfg: Config, a: Action, s: State)
    requires Recorded(cfg, s) && Enabled(cfg, a, s)
    ensures Recorded(cfg, Effect(cfg, a, s))
  {
  }

  lemma IdentityPreserved(cfg: Config, a: Action, s: State)
    requires IdentityInv(cfg, s) && Enabled(cfg, a, s)
    ensures IdentityInv(cfg, Effect(cfg, a, s))
  {
    RecordedPreserved(cfg, a, s);
    var s' := Effect(cfg, a, s);
    if !cfg.rewrites {
      forall row, p | (row, p) in s'.had ensures Kept(cfg, s', row, p) {
        assert (row, p) in s.had ==> Kept(cfg, s, row, p);
      }
    }
  }

  // ---- carried exclusions ----

  /** A carry that has not expired is stored, and whatever is stored for its hash expires no earlier. */
  ghost predicate CarryOk(s: State, hash: string, expires: Time) {
    InSeconds(s.clock) < InSeconds(expires) ==> hash in s.stored && InSeconds(expires) <= s.stored[hash].ttl
  }

  ghost predicate CarryInv(cfg: Config, s: State) {
    && (forall c :: c in s.carries ==> CarryOk(s, c.0, c.1))
    && (forall e :: e in s.erased ==> ErasedOk(cfg, s, e) && e.0 !in s.exclusion)
  }

  /** An exclusion that was erased while it had to outlive the account was carried first. */
  ghost predicate ErasedOk(cfg: Config, s: State, e: (UserId, End, Time)) {
    var expires := CarriedSelfExclusion(cfg, e.1, e.2);
    expires.Some? && cfg.cpfHash(e.0).Some? ==> (cfg.cpfHash(e.0).value, expires.value) in s.carries
  }

  lemma LaterInSeconds(t: Time, u: Time)
    requires t <= u
    ensures InSeconds(t) <= InSeconds(u)
  {
  }

  lemma CarryPreserved(cfg: Config, a: Action, s: State)
    requires CarryInv(cfg, s) && Enabled(cfg, a, s)
    ensures CarryInv(cfg, Effect(cfg, a, s))
  {
    var s' := Effect(cfg, a, s);
    if a.Tick? {
      LaterInSeconds(s.clock, a.time);
    }
    forall c | c in s'.carries ensures CarryOk(s', c.0, c.1) {
      assert c in s.carries ==> CarryOk(s, c.0, c.1);
    }
    forall e | e in s'.erased ensures ErasedOk(cfg, s', e) && e.0 !in s'.exclusion {
      assert e in s.erased ==> ErasedOk(cfg, s, e);
    }
  }

  // ---- purges ----

  /** What was on a row when the purge began is still there, or the row has been stripped since. */
  ghost predicate BegunOk(s: State, purge: Begun) {
    forall row :: row in purge.identity ==>
      row in s.identity && (purge.identity[row].Some? ==> s.identity[row].Some? || StrippedSince(purge.strips, s, row))
  }

  /** The listing shows every row that carried an identity when the purge began and has not been stripped since. */
  ghost predicate ListingOk(cfg: Config, s: State, l: Listing) {
    forall row :: row in l.purge.identity && OfKind(cfg, l.purge.user, l.deposits, row) && l.purge.identity[row].Some? ==>
      row in l.rows || StrippedSince(l.purge.strips, s, row)
  }

  /** Every row of one kind that carried an identity when the purge began has been stripped since. */
  ghost predicate KindComplete(cfg: Config, s: State, purge: Begun, deposits: bool) {
    forall row :: row in purge.identity && OfKind(cfg, purge.user, deposits, row) && purge.identity[row].Some? ==>
      StrippedSince(purge.strips, s, row)
  }

  ghost predicate Complete(cfg: Config, s: State, purge: Begun) {
    KindComplete(cfg, s, purge, true) && KindComplete(cfg, s, purge, false)
  }

  ghost predicate PurgesInv(cfg: Config, s: State) {
    && (forall purge :: purge in s.begun ==> purge.strips <= |s.strips| && BegunOk(s, purge))
    && (cfg.indexCaughtUp ==> forall l :: l in s.listings ==> ListingOk(cfg, s, l))
    && (cfg.indexCaughtUp ==> forall purge :: purge in s.done ==> Complete(cfg, s, purge))
  }

  lemma StripsStay(cfg: Config, a: Action, s: State, from: nat, row: RowId)
    requires Enabled(cfg, a, s) && StrippedSince(from, s, row)
    ensures StrippedSince(from, Effect(cfg, a, s), row)
  {
    var i :| from <= i < |s.strips| && s.strips[i] == row;
    assert Effect(cfg, a, s).strips[i] == row;
  }

  lemma BegunStays(cfg: Config, a: Action, s: State, purge: Begun)
    requires Enabled(cfg, a, s) && purge.strips <= |s.strips| && BegunOk(s, purge)
    ensures BegunOk(Effect(cfg, a, s), purge)
  {
    var s' := Effect(cfg, a, s);
    forall row | row in purge.identity
      ensures row in s'.identity && (purge.identity[row].Some? ==> s'.identity[row].Some? || StrippedSince(purge.strips, s', row))
    {
      if StrippedSince(purge.strips, s, row) {
        StripsStay(cfg, a, s, purge.strips, row);
      } else if a == Strip(row) {
        assert s'.strips[|s.strips|] == row;
      }
    }
  }

  lemma ListingStays(cfg: Config, a: Action, s: State, l: Listing)
    requires Enabled(cfg, a, s) && ListingOk(cfg, s, l)
    ensures ListingOk(cfg, Effect(cfg, a, s), l)
  {
    forall row | StrippedSince(l.purge.strips, s, row) ensures StrippedSince(l.purge.strips, Effect(cfg, a, s), row) {
      StripsStay(cfg, a, s, l.purge.strips, row);
    }
  }

  lemma CompleteStays(cfg: Config, a: Action, s: State, purge: Begun)
    requires Enabled(cfg, a, s) && Complete(cfg, s, purge)
    ensures Complete(cfg, Effect(cfg, a, s), purge)
  {
    forall row | StrippedSince(purge.strips, s, row) ensures StrippedSince(purge.strips, Effect(cfg, a, s), row) {
      StripsStay(cfg, a, s, purge.strips, row);
    }
  }

  /** A listing made once the index has caught up misses nothing. */
  lemma FreshListing(cfg: Config, s: State, l: Listing)
    requires BegunOk(s, l.purge)
    requires forall row :: row in s.identity && OfKind(cfg, l.purge.user, l.deposits, row) && s.identity[row].Some? ==> row in l.rows
    ensures ListingOk(cfg, s, l)
  {
  }

  lemma WorkedIsComplete(cfg: Config, s: State, purge: Begun, deposits: bool)
    requires Worked(s, purge, deposits) && forall l :: l in s.listings ==> ListingOk(cfg, s, l)
    ensures KindComplete(cfg, s, purge, deposits)
  {
    var l :| l in s.listings && l.purge == purge && l.deposits == deposits
      && forall row :: row in l.rows ==> StrippedSince(purge.strips, s, row);
    assert ListingOk(cfg, s, l);
  }

  lemma PurgesPreserved(cfg: Config, a: Action, s: State)
    requires PurgesInv(cfg, s) && Enabled(cfg, a, s)
    ensures PurgesInv(cfg, Effect(cfg, a, s))
  {
    var s' := Effect(cfg, a, s);
    forall purge | purge in s.begun ensures BegunOk(s', purge) {
      BegunStays(cfg, a, s, purge);
    }
    if cfg.indexCaughtUp {
      forall l | l in s.listings ensures ListingOk(cfg, s', l) {
        ListingStays(cfg, a, s, l);
      }
      forall purge | purge in s.done ensures Complete(cfg, s', purge) {
        CompleteStays(cfg, a, s, purge);
      }
      if a.List? {
        FreshListing(cfg, s, Listing(a.purge, a.deposits, a.rows));
        ListingStays(cfg, a, s, Listing(a.purge, a.deposits, a.rows));
      } else if a.Finish? {
        WorkedIsComplete(cfg, s, a.purge, true);
        WorkedIsComplete(cfg, s, a.purge, false);
        CompleteStays(cfg, a, s, a.purge);
      }
    }
  }

  // ---- over whole runs ----

  lemma {:induction false} RunInv(cfg: Config, actions: seq<Action>, states: seq<State>, i: nat)
    requires IsRun(cfg, actions, states) && i <= |actions|
    ensures IdentityInv(cfg, states[i]) && CarryInv(cfg, states[i]) && PurgesInv(cfg, states[i])
    decreases i
  {
    if i > 0 {
      RunInv(cfg, actions, states, i - 1);
      IdentityPreserved(cfg, actions[i - 1], states[i - 1]);
      CarryPreserved(cfg, actions[i - 1], states[i - 1]);
      PurgesPreserved(cfg, actions[i - 1], states[i - 1]);
    }
  }

  lemma ReachableInv(cfg: Config, s: State)
    requires Reachable(cfg, s)
    ensures IdentityInv(cfg, s) && CarryInv(cfg, s) && PurgesInv(cfg, s)
  {
    var actions, states :| IsRun(cfg, actions, states) && states[|actions|] == s;
    RunInv(cfg, actions, states, |actions|);
  }

  ghost predicate NeverLost(cfg: Config) {
    forall s :: Reachable(cfg, s) ==> NothingLost(cfg, s)
  }

  function Nothing(): State { State(0, map[], map[], {}, [], map[], map[], {}, {}, {}, {}, {}) }

  lemma DoAdd(cfg: Config, s: State, row: RowId, p: string) returns (s': State)
    requires Reachable(cfg, s) && row !in s.identity
    ensures s' == AfterAddRow(s, row, Some(p)) && Reachable(cfg, s')
  {
    ReachStep(cfg, AddRow(row, Some(p)), s);
    s' := AfterAddRow(s, row, Some(p));
  }

  /** The row's identity copied, unless there is a copy already, and then stripped. */
  lemma DoRetainAndStrip(cfg: Config, s: State, row: RowId, p: string) returns (s': State)
    requires Reachable(cfg, s) && row in s.identity && (row, p) in s.had
    ensures s' == AfterStrip(AfterRetain(cfg, s, row, p), row) && Reachable(cfg, s')
  {
    ReachStep(cfg, Retain(row, p), s);
    var s1 := AfterRetain(cfg, s, row, p);
    ReachStep(cfg, Strip(row), s1);
    s' := AfterStrip(s1, row);
  }

  /** A payer identity written again after a purge, then purged again: retention is write-once and keeps the
      first, the row is stripped of the second. */
  lemma SecondIdentityLost(cfg: Config) returns (s: State)
    requires cfg.rewrites
    ensures Reachable(cfg, s) && !NothingLost(cfg, s)
  {
    var row := DepositOf(Txid("", ""));
    var first, second := "1", "2";
    var s0 := Nothing();
    ReachInit(cfg, s0);
    var s1 := DoAdd(cfg, s0, row, first);
    var s2 := DoRetainAndStrip(cfg, s1, row, first);
    ReachStep(cfg, Identify(row, second), s2);
    var s3 := AfterIdentify(s2, row, second);
    s := DoRetainAndStrip(cfg, s3, row, second);
    assert (row, second) in s.had && !Kept(cfg, s, row, second);
  }

  /** Concurrent, crashed and restarted purges never lose an identity exactly when no row is ever given a second,
      different identity. */
  lemma NeverLostExactly(cfg: Config)
    ensures NeverLost(cfg) <==> !cfg.rewrites
  {
    if cfg.rewrites {
      var s := SecondIdentityLost(cfg);
    } else {
      forall s | Reachable(cfg, s) ensures NothingLost(cfg, s) {
        ReachableInv(cfg, s);
      }
    }
  }

  /** A purge answered as done has stripped every identity that was on a row of its user when it began, and a full
      copy of the row is retained. */
  ghost predicate DoneIsComplete(cfg: Config) {
    forall s, purge, row ::
      Reachable(cfg, s) && purge in s.done && row in purge.identity && cfg.owner(row) == purge.user && purge.identity[row].Some? ==>
      StrippedSince(purge.strips, s, row) && (purge.user, row) in s.retained
  }

  /** An identity is written just before the purge lists the rows. The index does not show it yet; the purge finds
      nothing to copy or strip and is answered as done. */
  lemma DoneTooEarly(cfg: Config, row: RowId, p: string) returns (s: State, purge: Begun)
    requires !cfg.indexCaughtUp
    ensures Reachable(cfg, s) && purge in s.done && purge.user == cfg.owner(row)
    ensures row in purge.identity && purge.identity[row] == Some(p)
    ensures row in s.identity && s.identity[row] == Some(p) && s.strips == [] && (purge.user, row) !in s.retained
  {
    var s0 := Nothing();
    ReachInit(cfg, s0);
    var s1 := DoAdd(cfg, s0, row, p);
    ReachStep(cfg, Begin(cfg.owner(row)), s1);
    purge := Started(s1, cfg.owner(row));
    s := DoFinishBlind(cfg, AfterBegin(s1, cfg.owner(row)), purge);
  }

  /** A purge that is shown nothing and finishes. */
  lemma DoFinishBlind(cfg: Config, s: State, purge: Begun) returns (s': State)
    requires Reachable(cfg, s) && !cfg.indexCaughtUp && purge in s.begun && purge.user !in s.exclusion
    ensures Reachable(cfg, s') && purge in s'.done
    ensures s'.identity == s.identity && s'.strips == s.strips && s'.retained == s.retained
  {
    var s1 := DoListNothing(cfg, s, purge, true);
    var s2 := DoListNothing(cfg, s1, purge, false);
    ReachStep(cfg, Finish(purge), s2);
    s' := s2.(done := s2.done + {purge});
  }

  lemma DoListNothing(cfg: Config, s: State, purge: Begun, deposits: bool) returns (s': State)
    requires Reachable(cfg, s) && !cfg.indexCaughtUp && purge in s.begun
    ensures s' == AfterList(s, purge, deposits, {}) && Reachable(cfg, s') && Listing(purge, deposits, {}) in s'.listings
  {
    ReachStep(cfg, List(purge, deposits, {}), s);
    s' := AfterList(s, purge, deposits, {});
  }

  /** Purges answered as done have stripped everything exactly when each lists only once the index has caught up
      with the rows. */
  lemma DoneIsCompleteExactly(cfg: Config)
    ensures DoneIsComplete(cfg) <==> cfg.indexCaughtUp
  {
    if cfg.indexCaughtUp {
      forall s, purge, row | Reachable(cfg, s) && purge in s.done && row in purge.identity
                             && cfg.owner(row) == purge.user && purge.identity[row].Some?
        ensures StrippedSince(purge.strips, s, row) && (purge.user, row) in s.retained
      {
        ReachableInv(cfg, s);
        assert Complete(cfg, s, purge) && OfKind(cfg, purge.user, row.DepositOf?, row);
      }
    } else {
      var s, purge := DoneTooEarly(cfg, DepositOf(Txid("", "")), "");
    }
  }

  /** A retained copy never changes and never goes. */
  lemma RetainedForGood(cfg: Config, a: Action, s: State, k: (UserId, RowId))
    requires Enabled(cfg, a, s) && k in s.retained
    ensures k in Effect(cfg, a, s).retained && Effect(cfg, a, s).retained[k] == s.retained[k]
  {
  }

  /** Until the second `until` falls in, a lookup under the hash finds an exclusion that ends no earlier. */
  ghost predicate FoundUntil(s: State, hash: string, until: Time) {
    InSeconds(s.clock) < InSeconds(until) ==>
      GetCarried(s.stored, hash, s.clock).Some? && hash in s.stored && InSeconds(until) <= s.stored[hash].ttl
  }

  /** A self-exclusion outlives the profile that held it, whatever purges of other accounts with the same CPF did: one
      without an end, or whose end cannot be read, for the retention years from the purge that erased it; one that had
      not ended by then, to its end. */
  lemma ExclusionOutlivesItsProfile(cfg: Config, s: State, e: (UserId, End, Time))
    requires Reachable(cfg, s) && e in s.erased && cfg.cpfHash(e.0).Some?
    ensures match e.1
            case Indefinite => FoundUntil(s, cfg.cpfHash(e.0).value, cfg.inFiveYears(e.2))
            case Unparsable => FoundUntil(s, cfg.cpfHash(e.0).value, cfg.inFiveYears(e.2))
            case At(t) => e.2 < t ==> FoundUntil(s, cfg.cpfHash(e.0).value, t)
  {
    ReachableInv(cfg, s);
    assert ErasedOk(cfg, s, e);
    forall until | (cfg.cpfHash(e.0).value, until) in s.carries ensures FoundUntil(s, cfg.cpfHash(e.0).value, until) {
      assert CarryOk(s, cfg.cpfHash(e.0).value, until);
    }
  }

  /** An exclusion that has ended is never carried over. */
  lemma EndedIsNotCarried(cfg: Config, s: State, user: UserId, now: Time)
    requires user in s.exclusion && s.exclusion[user].At? && s.exclusion[user].time <= now
    ensures !Enabled(cfg, Carry(user, now), s)
  {
  }

  /** Stored in whole seconds, a carried exclusion holds at every instant before its end exactly when it ends on
      a whole second; otherwise it lapses within that last second. */
  lemma WholeSecondsExactly(hash: string, end: End, until: Time)
    ensures (forall now: Time :: now < until ==> GetCarried(PutCarried(map[], hash, end, until), hash, now).Some?) <==>
        until % SECOND == 0
  {
    var stored := PutCarried(map[], hash, end, until);
    if until % SECOND == 0 {
      forall now: Time | now < until ensures GetCarried(stored, hash, now).Some? {
      }
    } else {
      var last: Time := InSeconds(until) * SECOND;
      assert last < until && GetCarried(stored, hash, last).None?;
    }
  }
}
