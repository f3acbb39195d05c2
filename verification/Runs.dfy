/** The invariants together, over whole runs. */
module Runs {
  import opened Rows
  import opened Store
  import opened System
  import opened Sums
  import opened Ledger
  import opened Markers
  import opened Withdrawals
  import opened Deposits
  import opened Books
  import opened Holds
  import opened DailyCounters
  import opened Slots
  import opened Growth
  import opened Fingerprints

  /** What holds in every reachable state, the last four under the environment's promises they name. */
  ghost predicate Inv(env: Env, s: State) {
    && LedgerInv(s) && MarkersInv(s) && RowsInv(env, s) && DepositsInv(s) && HoldsInv(s) && BooksInv(s)
    && ConservedInv(s) && ReleasesInv(s) && PrintsInv(s) && KindsInv(s)
    && (GraceCovers(env) ==> CreditInv(env, s))
    && (Alone(env) ==> ExclusiveInv(s))
    && (Calendar(env) ==> CountersInv(env, s))
    && (SlotsExact(env) ==> SlotsInv(env, s))
  }

  lemma InitConserves(s: State)
    requires Init(s)
    ensures ConservedInv(s)
  {
    forall user ensures CreditedTo(s, user) <= SettledOf(s, user) {
      SumAtLeast(s.db.holds.Keys, id => SettledTerm(s, user, id));
    }
  }

  lemma InitInv(env: Env, s: State)
    requires Init(s)
    ensures Inv(env, s)
  {
    InitConserves(s);
  }

  /** Every action of every call keeps every invariant. */
  lemma StepInv(env: Env, c: CallId, a: Action, s: State)
    requires Inv(env, s) && Enabled(env, c, a, s)
    ensures Inv(env, Effect(env, c, a, s))
  {
    LedgerPreserved(env, c, a, s);
    MarkersPreserved(env, c, a, s);
    RowsPreserved(env, c, a, s);
    DepositsPreserved(env, c, a, s);
    HoldsPreserved(env, c, a, s);
    BooksPreserved(env, c, a, s);
    ConservedPreserved(env, c, a, s);
    ReleasesPreserved(env, c, a, s);
    PrintsPreserved(env, c, a, s);
    KindsPreserved(env, c, a, s);
    if GraceCovers(env) { CreditPreserved(env, c, a, s); }
    if Alone(env) { ExclusivePreserved(env, c, a, s); }
    if Calendar(env) { CountersPreserved(env, c, a, s); }
    if SlotsExact(env) { SlotsPreserved(env, c, a, s); }
  }

  lemma {:induction false} RunInv(env: Env, events: seq<Event>, states: seq<State>, i: nat)
    requires IsRun(env, events, states) && i <= |events|
    ensures Inv(env, states[i])
    decreases i
  {
    if i == 0 {
      InitInv(env, states[0]);
    } else {
      RunInv(env, events, states, i - 1);
      StepInv(env, events[i - 1].caller, events[i - 1].action, states[i - 1]);
    }
  }

  lemma LaterRefl(s: State)
    ensures Later(s, s)
  {
  }

  lemma RunKnows(env: Env, events: seq<Event>, states: seq<State>, i: nat)
    requires IsRun(env, events, states) && i <= |events|
    ensures states[i].hist.Keys == states[i].db.wallets.Keys && RowsKnowPayer(states[i])
  {
    RunInv(env, events, states, i);
  }

  lemma {:induction false} RunGrows(env: Env, events: seq<Event>, states: seq<State>, i: nat, j: nat)
    requires IsRun(env, events, states) && i <= j <= |events|
    ensures Later(states[i], states[j])
    decreases j
  {
    hide Known, Enabled;
    if i == j {
      LaterRefl(states[i]);
    } else {
      RunGrows(env, events, states, i, j - 1);
      RunKnows(env, events, states, j - 1);
      StepGrows(env, events[j - 1].caller, events[j - 1].action, states[j - 1]);
      LaterTrans(states[i], states[j - 1], states[j]);
    }
  }

  /** While a call takes no action, everything the others do stays within what it relies on. */
  lemma {:induction false} RunRelied(env: Env, events: seq<Event>, states: seq<State>, me: CallId, i: nat, j: nat)
    requires IsRun(env, events, states) && i <= j <= |events|
    requires forall k :: i <= k < j ==> events[k].caller != me
    ensures Rely(env, me, states[i], states[j])
    decreases j
  {
    hide Known, Enabled;
    if i == j {
      LaterRefl(states[i]);
    } else {
      RunRelied(env, events, states, me, i, j - 1);
      RunKnows(env, events, states, j - 1);
      StepRelied(env, me, events[j - 1].caller, events[j - 1].action, states[j - 1]);
      RelyTrans(env, me, states[i], states[j - 1], states[j]);
    }
  }

  ghost predicate Reachable(env: Env, s: State) {
    exists events, states :: IsRun(env, events, states) && states[|events|] == s
  }

  lemma ReachableInv(env: Env, s: State)
    requires Reachable(env, s)
    ensures Inv(env, s)
  {
    var events, states :| IsRun(env, events, states) && states[|events|] == s;
    RunInv(env, events, states, |events|);
  }

  lemma ReachInit(env: Env, s: State)
    requires Init(s)
    ensures Reachable(env, s)
  {
    assert IsRun(env, [], [s]);
  }

  lemma ReachStep(env: Env, c: CallId, a: Action, s: State)
    requires Reachable(env, s) && Enabled(env, c, a, s)
    ensures Reachable(env, Effect(env, c, a, s))
  {
    var events, states :| IsRun(env, events, states) && states[|events|] == s;
    var events', states' := events + [Event(c, a)], states + [Effect(env, c, a, s)];
    forall i | 0 <= i < |events'|
      ensures Enabled(env, events'[i].caller, events'[i].action, states'[i])
      ensures states'[i + 1] == Effect(env, events'[i].caller, events'[i].action, states'[i])
    {
      if i < |events| {
        assert events'[i] == events[i] && states'[i] == states[i] && states'[i + 1] == states[i + 1];
      }
    }
    assert IsRun(env, events', states');
  }
}
