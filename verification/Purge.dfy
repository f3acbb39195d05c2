/** The purge of one account, as the code performs it: carry the self-exclusion, copy and strip every identity,
    erase the profile. Other purges of the same account may be running. */
module Purge {
  import opened Rows
  import opened Erasure

  /** What no other purge takes back. */
  ghost predicate Later(s: State, s': State) {
    && s.clock <= s'.clock && s.identity.Keys <= s'.identity.Keys
    && (forall k :: k in s.retained ==> k in s'.retained && s'.retained[k] == s.retained[k])
    && s.had <= s'.had && s.strips <= s'.strips && s.carries <= s'.carries && s.erased <= s'.erased
    && s.begun <= s'.begun && s.listings <= s'.listings && s.done <= s'.done
    && (forall user :: user in s.exclusion ==> Gone(s', user) || (user in s'.exclusion && s'.exclusion[user] == s.exclusion[user]))
  }

  ghost predicate Gone(s: State, user: UserId) {
    exists end, now :: (user, end, now) in s.erased
  }

  lemma StepIsLater(cfg: Config, a: Action, s: State)
    requires Enabled(cfg, a, s)
    ensures Later(s, Effect(cfg, a, s))
  {
    if a.EraseProfile? && a.user in s.exclusion {
      assert (a.user, s.exclusion[a.user], a.now) in Effect(cfg, a, s).erased;
    }
  }

  lemma LaterRefl(s: State)
    ensures Later(s, s)
  {
  }

  lemma LaterTrans(s: State, t: State, u: State)
    requires Later(s, t) && Later(t, u)
    ensures Later(s, u)
  {
    forall user | user in s.exclusion ensures Gone(u, user) || (user in u.exclusion && u.exclusion[user] == s.exclusion[user]) {
      if Gone(t, user) {
        var end, now :| (user, end, now) in t.erased;
        assert (user, end, now) in u.erased;
      }
    }
  }

  /** Whether a purge still knows, after a pause, what it must know to erase the profile. The wallet records no
      new self-exclusion for an account under erasure. */
  ghost predicate NoNewExclusion(s: State, s': State, user: UserId) {
    user in s'.exclusion ==> user in s.exclusion
  }

  lemma MayEraseStays(cfg: Config, s: State, s': State, user: UserId, now: Time)
    requires MayErase(cfg, s, user, now) && Later(s, s') && NoNewExclusion(s, s', user) && Reachable(cfg, s')
    ensures MayErase(cfg, s', user, now)
  {
    ReachableInv(cfg, s');
  }

  /** The row was stripped after the first `from` strips, its full copy retained before. */
  ghost predicate Stripped(cfg: Config, from: nat, s: State, row: RowId) {
    StrippedSince(from, s, row) && (cfg.owner(row), row) in s.retained
  }

  lemma StrippedStays(cfg: Config, from: nat, since: nat, s: State, s': State, row: RowId)
    requires Stripped(cfg, since, s, row) && from <= since && Later(s, s')
    ensures Stripped(cfg, from, s', row)
  {
    var i :| since <= i < |s.strips| && s.strips[i] == row;
    assert s'.strips[i] == row;
  }

  lemma KindStays(cfg: Config, s: State, s': State, purge: Begun, deposits: bool)
    requires KindComplete(cfg, s, purge, deposits) && Reachable(cfg, s) && Later(s, s')
    ensures KindComplete(cfg, s', purge, deposits)
  {
    ReachableInv(cfg, s);
    forall row | row in purge.identity && OfKind(cfg, purge.user, deposits, row) && purge.identity[row].Some?
      ensures StrippedSince(purge.strips, s', row)
    {
      StrippedStays(cfg, purge.strips, purge.strips, s, s', row);
    }
  }

  lemma WorkedStays(cfg: Config, s: State, s': State, purge: Begun, deposits: bool)
    requires Worked(s, purge, deposits) && Reachable(cfg, s) && Later(s, s')
    ensures Worked(s', purge, deposits)
  {
    ReachableInv(cfg, s);
    var l :| l in s.listings && l.purge == purge && l.deposits == deposits
      && forall row :: row in l.rows ==> StrippedSince(purge.strips, s, row);
    forall row | row in l.rows ensures StrippedSince(purge.strips, s', row) {
      StrippedStays(cfg, purge.strips, purge.strips, s, s', row);
    }
  }

  /** The rows of a listing that were shown with an identity. */
  function Identified(rows: seq<(RowId, Option<string>)>): set<RowId> {
    set r | r in rows && r.1.Some? :: r.0
  }

  /** A listing whose rows have all been stripped: the purge has done its work, and if the listing missed nothing, all
      of it. */
  lemma ListingWorked(cfg: Config, purge: Begun, deposits: bool, rows: seq<(RowId, Option<string>)>, listed: State, s: State)
    requires Reachable(cfg, listed) && Later(listed, s) && purge in listed.begun
    requires Listing(purge, deposits, Identified(rows)) in listed.listings
    requires forall r :: r in rows && r.1.Some? ==> Stripped(cfg, |listed.strips|, s, r.0)
    ensures Worked(s, purge, deposits)
    ensures ListingOk(cfg, listed, Listing(purge, deposits, Identified(rows))) ==> KindComplete(cfg, s, purge, deposits)
  {
    ReachableInv(cfg, listed);
    var l := Listing(purge, deposits, Identified(rows));
    assert l in s.listings;
    if ListingOk(cfg, listed, l) {
      forall row | row in purge.identity && OfKind(cfg, purge.user, deposits, row) && purge.identity[row].Some?
        ensures StrippedSince(purge.strips, s, row)
      {
        if row !in l.rows {
          StrippedStays(cfg, purge.strips, purge.strips, listed, s, row);
        }
      }
    }
  }

  /** How many listed rows carry an identity: the count a purge acknowledges. */
  function WithIdentity(rows: seq<(RowId, Option<string>)>): nat {
    if rows == [] then 0 else WithIdentity(rows[..|rows| - 1]) + (if rows[|rows| - 1].1.Some? then 1 else 0)
  }

  lemma WithIdentityNext(rows: seq<(RowId, Option<string>)>, i: nat)
    requires i < |rows|
    ensures WithIdentity(rows[..i + 1]) == WithIdentity(rows[..i]) + (if rows[i].1.Some? then 1 else 0)
  {
    assert rows[..i + 1][..i] == rows[..i];
  }

  /** A row as a listing may show it: the user's, bare or with an identity it has had. */
  ghost predicate Listed(cfg: Config, s: State, user: UserId, r: (RowId, Option<string>)) {
    r.0 in s.identity && cfg.owner(r.0) == user && (r.1.Some? ==> (r.0, r.1.value) in s.had)
  }

  /** Every row of the kind is listed with what it carries. */
  ghost predicate AsItIs(cfg: Config, s: State, user: UserId, deposits: bool, rows: seq<(RowId, Option<string>)>) {
    forall row :: row in s.identity && OfKind(cfg, user, deposits, row) ==> (row, s.identity[row]) in rows
  }

  lemma ShownRows(cfg: Config, s: State, purge: Begun, deposits: bool, rows: seq<(RowId, Option<string>)>, clean: bool)
    requires Reachable(cfg, s) && purge in s.begun && (cfg.indexCaughtUp ==> clean)
    requires forall r :: r in rows ==> Listed(cfg, s, purge.user, r) && r.0.DepositOf? == deposits
    requires clean ==> AsItIs(cfg, s, purge.user, deposits, rows)
    ensures CanList(cfg, s, purge, deposits, Identified(rows))
    ensures clean ==> ListingOk(cfg, AfterList(s, purge, deposits, Identified(rows)), Listing(purge, deposits, Identified(rows)))
  {
    ReachableInv(cfg, s);
    if clean {
      forall row | row in s.identity && OfKind(cfg, purge.user, deposits, row) && s.identity[row].Some?
        ensures row in Identified(rows)
      {
        assert (row, s.identity[row]) in rows;
      }
    }
  }

  lemma StillStripped(cfg: Config, start: State, before: State, s: State, rows: seq<(RowId, Option<string>)>, n: nat)
    requires n < |rows| && Later(start, before) && Later(before, s)
    requires forall j :: 0 <= j < n && rows[j].1.Some? ==> Stripped(cfg, |start.strips|, before, rows[j].0)
    requires Stripped(cfg, |before.strips|, s, rows[n].0)
    ensures forall j :: 0 <= j < n + 1 && rows[j].1.Some? ==> Stripped(cfg, |start.strips|, s, rows[j].0)
  {
    LaterRefl(s);
    StrippedStays(cfg, |start.strips|, |before.strips|, s, s, rows[n].0);
    forall j | 0 <= j < n && rows[j].1.Some? ensures Stripped(cfg, |start.strips|, s, rows[j].0) {
      StrippedStays(cfg, |start.strips|, |start.strips|, before, s, rows[j].0);
    }
  }

  /** The exclusion the user had at one moment has been carried over, judged at `now`: to its end if that was still to
      come, for the retention years if it has none that can be read. */
  ghost predicate CarriedFor(cfg: Config, from: State, s: State, user: UserId, now: Time) {
    user in from.exclusion && cfg.cpfHash(user).Some? ==>
      match from.exclusion[user]
      case At(t) => now < t ==> (cfg.cpfHash(user).value, t) in s.carries
      case _ => (cfg.cpfHash(user).value, cfg.inFiveYears(now)) in s.carries
  }

  /** Nothing is to be carried: no exclusion, no hash to key it on, or an exclusion that has ended. */
  ghost predicate NothingToCarry(cfg: Config, s: State, user: UserId, now: Time) {
    user in s.exclusion && cfg.cpfHash(user).Some? ==> s.exclusion[user].At? && s.exclusion[user].time <= now
  }

  datatype Ack = Blocked | Failed | Done

  class Purger {
    const cfg: Config
    var s: State
    ghost var faults: nat   // accesses that failed, whose answer was lost, or that showed a row as it is not

    ghost predicate Valid() reads this`s { Reachable(cfg, s) }

    /** Other purges and the rest of the wallet run; no self-exclusion is recorded for `user` meanwhile. */
    method Pause(user: UserId)
      requires Valid()
      modifies this`s
      ensures Valid() && Later(old(s), s) && NoNewExclusion(old(s), s, user)
    {
    }

    method Begin(user: UserId) returns (purge: Begun)
      requires Valid()
      modifies this`s
      ensures Valid() && Later(old(s), s) && s == AfterBegin(old(s), user)
      ensures purge == Started(old(s), user) && purge in s.begun
    {
      purge := Started(s, user);
      ReachStep(cfg, Action.Begin(user), s);
      StepIsLater(cfg, Action.Begin(user), s);
      s := AfterBegin(s, user);
    }

    /** What the index shows of a row: as it is, or, until it has caught up, missing, bare, or with any identity it
        has had. */
    method ShownAs(row: RowId) returns (shown: Option<Option<string>>)
      requires Valid() && row in s.identity
      modifies this`faults
      ensures faults >= old(faults)
      ensures shown.Some? && shown.value.Some? ==> (row, shown.value.value) in s.had
      ensures cfg.indexCaughtUp || faults == old(faults) ==> shown == Some(s.identity[row])
    {
      ReachableInv(cfg, s);
      shown := Some(s.identity[row]);
      var lags: bool := *;
      if lags && !cfg.indexCaughtUp {
        faults := faults + 1;
        shown := *;
        if shown.Some? && shown.value.Some? && (row, shown.value.value) !in s.had {
          shown := None;
        }
      }
    }

    /** The user's rows of one kind as the index shows them: complete and as they are once it has caught up. */
    method QueryIndex(user: UserId, deposits: bool) returns (rows: seq<(RowId, Option<string>)>)
      requires Valid()
      modifies this`faults
      ensures faults >= old(faults)
      ensures forall r :: r in rows ==> Listed(cfg, s, user, r) && r.0.DepositOf? == deposits
      ensures cfg.indexCaughtUp || faults == old(faults) ==> AsItIs(cfg, s, user, deposits, rows)
    {
      rows := [];
      var left := set row | row in s.identity && OfKind(cfg, user, deposits, row);
      while left != {}
        invariant faults >= old(faults)
        invariant forall row :: row in left ==> row in s.identity && OfKind(cfg, user, deposits, row)
        invariant forall r :: r in rows ==> Listed(cfg, s, user, r) && r.0.DepositOf? == deposits
        invariant cfg.indexCaughtUp || faults == old(faults) ==>
            forall row :: row in s.identity && OfKind(cfg, user, deposits, row) && row !in left ==> (row, s.identity[row]) in rows
        decreases |left|
      {
        var row :| row in left;
        left := left - {row};
        var shown := ShownAs(row);
        if shown.Some? {
          rows := rows + [(row, shown.value)];
        }
      }
    }

    /** One listing, paged to its end. */
    method AllByUser(purge: Begun, deposits: bool) returns (ok: bool, rows: seq<(RowId, Option<string>)>)
      requires Valid() && purge in s.begun
      modifies this
      ensures Valid() && Later(old(s), s) && s.exclusion == old(s.exclusion)
      ensures faults >= old(faults) && (!ok ==> faults > old(faults))
      ensures forall r :: r in rows ==> Listed(cfg, s, purge.user, r)
      ensures ok ==> Listing(purge, deposits, Identified(rows)) in s.listings
      ensures ok && (cfg.indexCaughtUp || faults == old(faults)) ==> ListingOk(cfg, s, Listing(purge, deposits, Identified(rows)))
    {
      if * {
        LaterRefl(s);
        faults := faults + 1;
        return false, [];
      }
      ok := true;
      rows := QueryIndex(purge.user, deposits);
      ghost var clean := cfg.indexCaughtUp || faults == old(faults);
      ShownRows(cfg, s, purge, deposits, rows, clean);
      RecordListing(purge, deposits, rows);
    }

    method RecordListing(purge: Begun, deposits: bool, rows: seq<(RowId, Option<string>)>)
      requires Valid() && CanList(cfg, s, purge, deposits, Identified(rows))
      modifies this`s
      ensures Valid() && Later(old(s), s) && s == AfterList(old(s), purge, deposits, Identified(rows))
    {
      ReachStep(cfg, List(purge, deposits, Identified(rows)), s);
      StepIsLater(cfg, List(purge, deposits, Identified(rows)), s);
      s := AfterList(s, purge, deposits, Identified(rows));
    }

    /** A write-once copy; "already there" is success. */
    method Retain(user: UserId, row: RowId, identity: string) returns (ok: bool)
      requires Valid() && (row, identity) in s.had && cfg.owner(row) == user
      modifies this
      ensures faults >= old(faults) && (!ok ==> faults > old(faults))
      ensures Valid() && Later(old(s), s) && s.exclusion == old(s.exclusion)
      ensures ok ==> (user, row) in s.retained
    {
      if * {
        faults := faults + 1;
        return false;
      }
      ReachStep(cfg, Action.Retain(row, identity), s);
      StepIsLater(cfg, Action.Retain(row, identity), s);
      s := AfterRetain(cfg, s, row, identity);
      ok := *;
      faults := if ok then faults else faults + 1;
    }

    method Strip(row: RowId) returns (ok: bool)
      requires Valid() && row in s.identity && (cfg.owner(row), row) in s.retained
      modifies this
      ensures faults >= old(faults) && (!ok ==> faults > old(faults))
      ensures Valid() && Later(old(s), s) && s.exclusion == old(s.exclusion)
      ensures ok ==> Stripped(cfg, |old(s).strips|, s, row)
    {
      if * {
        faults := faults + 1;
        return false;
      }
      ReachStep(cfg, Action.Strip(row), s);
      StepIsLater(cfg, Action.Strip(row), s);
      s := AfterStrip(s, row);
      assert s.strips[|old(s).strips|] == row;
      ok := *;
      faults := if ok then faults else faults + 1;
    }

    /** Copies and strips the listed rows, one at a time, each copied before it is stripped. */
    method RetainAndStrip(user: UserId, rows: seq<(RowId, Option<string>)>) returns (ok: bool, count: nat)
      requires Valid() && forall r :: r in rows ==> Listed(cfg, s, user, r)
      modifies this
      ensures faults >= old(faults) && (!ok ==> faults > old(faults))
      ensures ok ==> count == WithIdentity(rows)
      ensures Valid() && Later(old(s), s) && NoNewExclusion(old(s), s, user)
      ensures ok ==> forall r :: r in rows && r.1.Some? ==> Stripped(cfg, |old(s).strips|, s, r.0)
    {
      hide Reachable;
      ghost var start := s;
      LaterRefl(s);
      count := 0;
      for i := 0 to |rows|
        invariant Valid() && Later(start, s) && NoNewExclusion(start, s, user) && faults >= old(faults)
        invariant count == WithIdentity(rows[..i])
        invariant forall j :: 0 <= j < i && rows[j].1.Some? ==> Stripped(cfg, |start.strips|, s, rows[j].0)
      {
        assert Listed(cfg, start, user, rows[i]);
        WithIdentityNext(rows, i);
        if rows[i].1.Some? {
          ghost var before := s;
          ok := CopyThenStrip(user, rows[i].0, rows[i].1.value);
          LaterTrans(start, before, s);
          if !ok {
            return;
          }
          StillStripped(cfg, start, before, s, rows, i);
          count := count + 1;
        }
      }
      assert rows[..|rows|] == rows;
      ok := true;
    }

    method CopyThenStrip(user: UserId, row: RowId, identity: string) returns (ok: bool)
      requires Valid() && row in s.identity && (row, identity) in s.had && cfg.owner(row) == user
      modifies this
      ensures faults >= old(faults) && (!ok ==> faults > old(faults))
      ensures Valid() && Later(old(s), s) && NoNewExclusion(old(s), s, user)
      ensures ok ==> Stripped(cfg, |old(s).strips|, s, row)
    {
      ghost var start := s;
      Pause(user);
      ghost var before := s;
      ok := Retain(user, row, identity);
      LaterTrans(start, before, s);
      if ok {
        before := s;
        ok := PauseThenStrip(user, row);
        LaterTrans(start, before, s);
      }
    }

    method PauseThenStrip(user: UserId, row: RowId) returns (ok: bool)
      requires Valid() && row in s.identity && (user, row) in s.retained && cfg.owner(row) == user
      modifies this
      ensures faults >= old(faults) && (!ok ==> faults > old(faults))
      ensures Valid() && Later(old(s), s) && NoNewExclusion(old(s), s, user)
      ensures ok ==> Stripped(cfg, |old(s).strips|, s, row)
    {
      ghost var start := s;
      Pause(user);
      ghost var before := s;
      ok := Strip(row);
      LaterTrans(start, before, s);
    }

    /** Carries an active exclusion over, under the CPF hash of the account. */
    method CarrySelfExclusion(user: UserId, now: Time) returns (ok: bool)
      requires Valid() && now <= s.clock
      modifies this
      ensures faults >= old(faults) && (!ok ==> faults > old(faults))
      ensures Valid() && Later(old(s), s) && NoNewExclusion(old(s), s, user)
      ensures ok ==> MayErase(cfg, s, user, now) && CarriedFor(cfg, old(s), s, user, now)
      ensures NothingToCarry(cfg, old(s), user, now) ==> s == old(s)
    {
      if * {
        faults := faults + 1;
        return false;
      }
      if user !in s.exclusion {
        return true;
      }
      var expires := CarriedSelfExclusion(cfg, s.exclusion[user], now);
      var hash := cfg.cpfHash(user);
      if expires.None? || hash.None? {
        return true;
      }
      ReachStep(cfg, Carry(user, now), s);
      StepIsLater(cfg, Carry(user, now), s);
      s := AfterCarry(s, hash.value, s.exclusion[user], expires.value);
      ok := *;
      faults := if ok then faults else faults + 1;
    }

    method EraseUserProfile(user: UserId, now: Time) returns (ok: bool)
      requires Valid() && now <= s.clock && MayErase(cfg, s, user, now)
      modifies this
      ensures faults >= old(faults) && (!ok ==> faults > old(faults))
      ensures Valid() && Later(old(s), s)
      ensures ok ==> user !in s.exclusion
    {
      if * {
        faults := faults + 1;
        return false;
      }
      ReachStep(cfg, EraseProfile(user, now), s);
      StepIsLater(cfg, EraseProfile(user, now), s);
      s := AfterErase(s, user, now);
      ok := *;
      faults := if ok then faults else faults + 1;
    }

    /** A purge that reports done has erased the profile, whose exclusion, if it had to outlive the account, was carried
        first. Where every listing showed the rows as they were, it has stripped, after copying, every identity that
        was on a row of the user when it began. */
    method PurgeAccount(user: UserId, blocked: bool) returns (ack: Ack)
      requires Valid()
      modifies this
      ensures Valid() && Later(old(s), s)
      ensures blocked <==> ack == Blocked
      ensures blocked ==> s == old(s)
      ensures faults >= old(faults) && (ack == Failed ==> faults > old(faults))
      ensures ack == Done ==> user !in s.exclusion && Started(old(s), user) in s.done
      ensures ack == Done ==> CarriedFor(cfg, old(s), s, user, old(s).clock)
      ensures ack == Done && (cfg.indexCaughtUp || faults == old(faults)) ==>
        forall row :: row in old(s.identity) && cfg.owner(row) == user && old(s.identity)[row].Some? ==>
          Stripped(cfg, |old(s).strips|, s, row)
    {
      if blocked {
        LaterRefl(s);
        return Blocked;
      }
      ghost var start := s;
      var purge := Begin(user);
      ghost var before := s;
      var ok := PurgeBegun(purge);
      LaterTrans(start, before, s);
      if ok {
        ReachableInv(cfg, s);
        return Done;
      }
      ack := Failed;
    }

    method PurgeBegun(purge: Begun) returns (ok: bool)
      requires Valid() && purge in s.begun
      modifies this
      ensures Valid() && Later(old(s), s)
      ensures faults >= old(faults) && (!ok ==> faults > old(faults))
      ensures ok ==> purge.user !in s.exclusion && purge in s.done && CarriedFor(cfg, old(s), s, purge.user, old(s).clock)
      ensures ok && (cfg.indexCaughtUp || faults == old(faults)) ==> Complete(cfg, s, purge)
    {
      ghost var start := s;
      var now := s.clock;
      ok := CarrySelfExclusion(purge.user, now);
      if !ok {
        return;
      }
      ghost var carried := s;
      ok := PurgeBoth(purge);
      LaterTrans(start, carried, s);
      if ok {
        MayEraseStays(cfg, carried, s, purge.user, now);
        ghost var before := s;
        ok := EraseAndFinish(purge, now);
        LaterTrans(start, before, s);
      }
    }

    method EraseAndFinish(purge: Begun, now: Time) returns (ok: bool)
      requires Valid() && now <= s.clock && MayErase(cfg, s, purge.user, now)
      requires purge in s.begun && Worked(s, purge, true) && Worked(s, purge, false)
      modifies this
      ensures Valid() && Later(old(s), s)
      ensures faults >= old(faults) && (!ok ==> faults > old(faults))
      ensures ok ==> purge.user !in s.exclusion && purge in s.done
      ensures ok && old(Complete(cfg, s, purge)) ==> Complete(cfg, s, purge)
    {
      ghost var start := s;
      ok := EraseUserProfile(purge.user, now);
      if ok {
        ghost var before := s;
        WorkedStays(cfg, start, s, purge, true);
        WorkedStays(cfg, start, s, purge, false);
        ReachStep(cfg, Finish(purge), s);
        StepIsLater(cfg, Finish(purge), s);
        s := s.(done := s.done + {purge});
        LaterTrans(start, before, s);
        if Complete(cfg, start, purge) {
          KindStays(cfg, start, s, purge, true);
          KindStays(cfg, start, s, purge, false);
        }
      }
    }

    method PurgeBoth(purge: Begun) returns (ok: bool)
      requires Valid() && purge in s.begun
      modifies this
      ensures faults >= old(faults) && (!ok ==> faults > old(faults))
      ensures Valid() && Later(old(s), s) && NoNewExclusion(old(s), s, purge.user)
      ensures ok ==> Worked(s, purge, true) && Worked(s, purge, false)
      ensures ok && (cfg.indexCaughtUp || faults == old(faults)) ==> Complete(cfg, s, purge)
    {
      ghost var start := s;
      ok := PurgeRows(purge, true);
      if !ok {
        return;
      }
      ghost var mid := s;
      ok := PurgeRows(purge, false);
      LaterTrans(start, mid, s);
      WorkedStays(cfg, mid, s, purge, true);
      if KindComplete(cfg, mid, purge, true) {
        KindStays(cfg, mid, s, purge, true);
      }
    }

    method PurgeRows(purge: Begun, deposits: bool) returns (ok: bool)
      requires Valid() && purge in s.begun
      modifies this
      ensures faults >= old(faults) && (!ok ==> faults > old(faults))
      ensures Valid() && Later(old(s), s) && NoNewExclusion(old(s), s, purge.user)
      ensures ok ==> Worked(s, purge, deposits)
      ensures ok && (cfg.indexCaughtUp || faults == old(faults)) ==> KindComplete(cfg, s, purge, deposits)
    {
      ghost var start := s;
      Pause(purge.user);
      ghost var before := s;
      var rows;
      ok, rows := AllByUser(purge, deposits);
      LaterTrans(start, before, s);
      if !ok {
        return;
      }
      ghost var listed := s;
      var count;
      ok, count := RetainAndStrip(purge.user, rows);
      LaterTrans(start, listed, s);
      if ok {
        ListingWorked(cfg, purge, deposits, rows, listed, s);
      }
    }
  }
}
