/** How idempotency keys are written as strings, and when two different operations can share one. */
module Keys {
  import opened Rows

  /** The operation's own prefix, before the first '#'. */
  function Prefix(k: IdemKey): string {
    match k
    case DepositKey(_) => "deposit"
    case WithdrawKey(_) => "withdraw"
    case ReverseKey(_) => "reverse"
    case BillingKey(_, _) => "billing_debit"
    case HoldKey(_) => "game_hold_debit"
    case ReleaseKey(_) => "game_hold_release"
    case CashoutKey(_, _) => "game_cashout_credit"
    case SandboxKey(credit, _, _) => if credit then "game_credit" else "game_debit"
  }

  /** How a user id and the caller's key are joined: by '#' in a key, by NUL under the hash of a deposit's id. */
  function JoinBy(sep: char, user: UserId, idem: string): string { user + [sep] + idem }

  const HASH := '#'
  const NUL := '\0'

  function Join(user: UserId, idem: string): string { JoinBy(HASH, user, idem) }

  function WithdrawalIdString(wid: WithdrawalId): string { "withdraw#" + Join(wid.user, wid.idem) }

  function HoldIdString(id: HoldId): string { "hold#" + Join(id.user, id.idem) }

  function Body(digest: string -> string, k: IdemKey): string {
    match k
    case DepositKey(txid) => digest(JoinBy(NUL, txid.user, txid.idem))
    case WithdrawKey(wid) => Join(wid.user, wid.idem)
    case ReverseKey(wid) => WithdrawalIdString(wid)
    case BillingKey(user, idem) => Join(user, idem)
    case HoldKey(id) => Join(id.user, id.idem)
    case ReleaseKey(id) => HoldIdString(id)
    case CashoutKey(user, idem) => Join(user, idem)
    case SandboxKey(_, user, idem) => Join(user, idem)
  }

  /** The stored key. A deposit's transaction id is the digest of the joined ids. */
  function Render(digest: string -> string, k: IdemKey): string { Prefix(k) + "#" + Body(digest, k) }

  function UserOf(k: IdemKey): UserId {
    match k
    case DepositKey(txid) => txid.user
    case WithdrawKey(wid) => wid.user
    case ReverseKey(wid) => wid.user
    case BillingKey(user, _) => user
    case HoldKey(id) => id.user
    case ReleaseKey(id) => id.user
    case CashoutKey(user, _) => user
    case SandboxKey(_, user, _) => user
  }

  function BeforeHash(s: string): string {
    if s == "" || s[0] == '#' then "" else [s[0]] + BeforeHash(s[1..])
  }

  lemma {:induction false} BeforeHashOf(p: string, x: string)
    requires '#' !in p
    ensures BeforeHash(p + "#" + x) == p
  {
    if p == "" {
      assert p + "#" + x == "#" + x;
    } else {
      BeforeHashOf(p[1..], x);
      assert (p + "#" + x)[1..] == p[1..] + "#" + x;
    }
  }

  /** Text before the first '#' splits off in one way only. */
  lemma SplitOnce(p: string, x: string, q: string, y: string)
    requires '#' !in p && '#' !in q && p + "#" + x == q + "#" + y
    ensures p == q && x == y
  {
    BeforeHashOf(p, x);
    BeforeHashOf(q, y);
    DropSame(p + "#", x, y);
  }

  lemma PrefixHasNoHash(k: IdemKey)
    ensures '#' !in Prefix(k)
  {
  }

  /** The prefix names the operation. */
  lemma PrefixNamesTheOperation(k: IdemKey, l: IdemKey)
    requires Prefix(k) == Prefix(l)
    ensures (k.DepositKey? <==> l.DepositKey?) && (k.WithdrawKey? <==> l.WithdrawKey?) && (k.ReverseKey? <==> l.ReverseKey?)
    ensures (k.BillingKey? <==> l.BillingKey?) && (k.HoldKey? <==> l.HoldKey?) && (k.ReleaseKey? <==> l.ReleaseKey?)
    ensures (k.CashoutKey? <==> l.CashoutKey?) && (k.SandboxKey? <==> l.SandboxKey?) && (k.SandboxKey? ==> k.credit == l.credit)
  {
    assert |Prefix(k)| == |Prefix(l)|;
    if |Prefix(k)| > 0 {
      assert Prefix(k)[0] == Prefix(l)[0];
    }
  }

  /** Joined strings agree for different users only when one id extends the other by the separator. */
  lemma JoinSplits(sep: char, u: UserId, i: string, v: UserId, j: string)
    requires JoinBy(sep, u, i) == JoinBy(sep, v, j)
    ensures (u == v && i == j) || u + [sep] <= v || v + [sep] <= u
  {
    var s := JoinBy(sep, u, i);
    if |u| == |v| {
      assert s[..|u|] == u && s[..|v|] == v;
      assert s[|u| + 1..] == i && s[|v| + 1..] == j;
    } else if |u| < |v| {
      assert s[..|v|] == v && s[..|u| + 1] == u + [sep];
      assert v[..|u| + 1] == s[..|u| + 1];
    } else {
      assert s[..|u|] == u && s[..|v| + 1] == v + [sep];
      assert u[..|v| + 1] == s[..|v| + 1];
    }
  }

  /** When one id extends another by the separator, the two can be joined to the same string. */
  lemma JoinClashes(sep: char, u: UserId, v: UserId) returns (i: string, j: string)
    requires u + [sep] <= v
    ensures u != v && JoinBy(sep, u, i) == JoinBy(sep, v, j)
  {
    var rest := v[|u| + 1..];
    i, j := rest + [sep], "";
    assert v == u + [sep] + rest;
    assert u + [sep] + (rest + [sep]) == v + [sep] + "";
  }

  lemma DropSame(p: string, x: string, y: string)
    requires p + x == p + y
    ensures x == y
  {
    assert (p + x)[|p|..] == x && (p + y)[|p|..] == y;
  }

  ghost predicate NoExtension(sep: char, users: iset<UserId>) {
    forall u, v :: u in users && v in users ==> !(u + [sep] <= v)
  }

  ghost predicate KeysApart(digest: string -> string, users: iset<UserId>) {
    forall k, l :: UserOf(k) in users && UserOf(l) in users && Render(digest, k) == Render(digest, l) ==> k == l
  }

  lemma SameJoin(sep: char, users: iset<UserId>, u: UserId, i: string, v: UserId, j: string)
    requires NoExtension(sep, users) && u in users && v in users && JoinBy(sep, u, i) == JoinBy(sep, v, j)
    ensures u == v && i == j
  {
    JoinSplits(sep, u, i, v, j);
  }

  lemma SameBody(digest: string -> string, users: iset<UserId>, k: IdemKey, l: IdemKey)
    requires NoExtension(HASH, users) && NoExtension(NUL, users) && UserOf(k) in users && UserOf(l) in users
    requires forall a, b :: digest(a) == digest(b) ==> a == b
    requires Prefix(k) == Prefix(l) && Body(digest, k) == Body(digest, l)
    ensures k == l
  {
    PrefixNamesTheOperation(k, l);
    match k
    case DepositKey(txid) => SameJoin(NUL, users, txid.user, txid.idem, l.txid.user, l.txid.idem);
    case WithdrawKey(wid) => SameJoin(HASH, users, wid.user, wid.idem, l.wid.user, l.wid.idem);
    case ReverseKey(wid) =>
      DropSame("withdraw#", Join(wid.user, wid.idem), Join(l.wid.user, l.wid.idem));
      SameJoin(HASH, users, wid.user, wid.idem, l.wid.user, l.wid.idem);
    case BillingKey(user, idem) => SameJoin(HASH, users, user, idem, l.user, l.idem);
    case HoldKey(id) => SameJoin(HASH, users, id.user, id.idem, l.hold.user, l.hold.idem);
    case ReleaseKey(id) =>
      DropSame("hold#", Join(id.user, id.idem), Join(l.hold.user, l.hold.idem));
      SameJoin(HASH, users, id.user, id.idem, l.hold.user, l.hold.idem);
    case CashoutKey(user, idem) => SameJoin(HASH, users, user, idem, l.user, l.idem);
    case SandboxKey(_, user, idem) => SameJoin(HASH, users, user, idem, l.user, l.idem);
  }

  /** Under a digest without collisions, two operations never share a stored key exactly when no user id extends
      another one by '#' or by NUL: ids without either are always apart. */
  lemma KeysApartExactly(digest: string -> string, users: iset<UserId>)
    requires forall a, b :: digest(a) == digest(b) ==> a == b
    ensures KeysApart(digest, users) <==> NoExtension(HASH, users) && NoExtension(NUL, users)
  {
    if !NoExtension(HASH, users) {
      var u, v :| u in users && v in users && u + [HASH] <= v;
      var i, j := JoinClashes(HASH, u, v);
      var k, l := BillingKey(u, i), BillingKey(v, j);
      assert UserOf(k) == u && UserOf(l) == v && Render(digest, k) == Render(digest, l) && k != l;
    } else if !NoExtension(NUL, users) {
      var u, v :| u in users && v in users && u + [NUL] <= v;
      var i, j := JoinClashes(NUL, u, v);
      var k, l := DepositKey(Txid(u, i)), DepositKey(Txid(v, j));
      assert UserOf(k) == u && UserOf(l) == v && Render(digest, k) == Render(digest, l) && k != l;
    } else {
      forall k, l | UserOf(k) in users && UserOf(l) in users && Render(digest, k) == Render(digest, l) ensures k == l {
        PrefixHasNoHash(k);
        PrefixHasNoHash(l);
        SplitOnce(Prefix(k), Body(digest, k), Prefix(l), Body(digest, l));
        SameBody(digest, users, k, l);
      }
    }
  }
}
