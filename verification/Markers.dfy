/** Wallet rows and (user, type) markers: one of each per owner, in every reachable state. */
module Markers {
  import opened Rows
  import opened Store
  import opened System

  ghost predicate MarkersInv(s: State) {
    && (forall o :: o in s.db.markers ==>
          s.db.markers[o] in s.db.wallets && s.db.wallets[s.db.markers[o]].user == o.user
              && s.db.wallets[s.db.markers[o]].kind == o.kind)
    && (forall w :: w in s.db.wallets ==>
          OwnsWallet(s, s.db.wallets[w].user, s.db.wallets[w].kind, w))
  }

  lemma CommitKeepsMarkers(s: State, m: Mutation, read: Snapshot, sk: SortKey)
    requires MarkersInv(s) && Commits(s, m, read, sk)
    ensures MarkersInv(AfterCommit(s, m, read, sk))
  {
  }

  lemma OpenKeepsMarkers(s: State, user: UserId, kind: WalletType, id: WalletId, overrides: Overrides)
    requires MarkersInv(s) && CanOpenWallet(s, user, kind, id)
    ensures MarkersInv(AfterOpenWallet(s, user, kind, id, overrides))
  {
  }

  lemma PostKeepsMarkers(env: Env, c: CallId, s: State, f: Flow, read: Snapshot, sk: SortKey, answered: bool)
    requires MarkersInv(s) && Commits(s, MutationOf(env, f), read, sk)
    ensures MarkersInv(AfterPost(env, c, s, f, read, sk, answered))
  {
    hide Commits, MutationOf;
    CommitKeepsMarkers(s, MutationOf(env, f), read, sk);
  }

  lemma MarkersUntouched(env: Env, c: CallId, a: Action, s: State)
    requires Enabled(env, c, a, s) && !a.Post? && !a.OpenWallet?
    ensures Effect(env, c, a, s).db.markers == s.db.markers && Effect(env, c, a, s).db.wallets == s.db.wallets
  {
  }

  /** Every action of every call keeps wallets and markers in bijection. */
  lemma MarkersPreserved(env: Env, c: CallId, a: Action, s: State)
    requires MarkersInv(s) && Enabled(env, c, a, s)
    ensures MarkersInv(Effect(env, c, a, s))
  {
    hide Known, Commits, MutationOf, MarkersInv;
    if a.Post? {
      PostKeepsMarkers(env, c, s, a.flow, a.read, a.sk, a.answered);
    } else if a.OpenWallet? {
      OpenKeepsMarkers(s, a.user, a.kind, a.id, a.overrides);
    } else {
      MarkersUntouched(env, c, a, s);
      MarkersFrame(s, Effect(env, c, a, s));
    }
  }

  lemma MarkersFrame(s: State, s': State)
    requires MarkersInv(s) && s'.db.markers == s.db.markers && s'.db.wallets == s.db.wallets
    ensures MarkersInv(s')
  {
  }
}
