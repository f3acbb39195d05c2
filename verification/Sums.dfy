/** Finite sums over the keys of a table, and how they move when a few terms change. */
module Sums {
  ghost function Sum<K(!new)>(keys: set<K>, f: K -> int): int {
    if keys == {} then 0
    else
      var k :| k in keys;
      f(k) + Sum(keys - {k}, f)
  }

  lemma {:induction false} SumRemove<K(!new)>(keys: set<K>, f: K -> int, k: K)
    requires k in keys
    ensures Sum(keys, f) == f(k) + Sum(keys - {k}, f)
    decreases |keys|
  {
    var first :| first in keys && Sum(keys, f) == f(first) + Sum(keys - {first}, f);
    if first != k {
      SumRemove(keys - {first}, f, k);
      SumRemove(keys - {k}, f, first);
      assert keys - {first} - {k} == keys - {k} - {first};
    }
  }

  lemma {:induction false} SumSame<K(!new)>(keys: set<K>, f: K -> int, g: K -> int)
    requires forall k :: k in keys ==> f(k) == g(k)
    ensures Sum(keys, f) == Sum(keys, g)
    decreases |keys|
  {
    if keys != {} {
      var k :| k in keys;
      SumRemove(keys, f, k);
      SumRemove(keys, g, k);
      SumSame(keys - {k}, f, g);
    }
  }

  /** One term changes, or appears. */
  lemma SumChange<K(!new)>(keys: set<K>, keys': set<K>, f: K -> int, g: K -> int, k: K)
    requires keys' == keys + {k} && (k !in keys ==> f(k) == 0)
    requires forall other :: other in keys && other != k ==> f(other) == g(other)
    ensures Sum(keys', g) == Sum(keys, f) - f(k) + g(k)
  {
    SumRemove(keys', g, k);
    SumSame(keys' - {k}, f, g);
    if k in keys {
      SumRemove(keys, f, k);
      assert keys' == keys;
    } else {
      assert keys' - {k} == keys;
    }
  }

  /** No term is negative, so the sum is at least any one of them. */
  lemma {:induction false} SumAtLeast<K(!new)>(keys: set<K>, f: K -> int)
    requires forall k :: k in keys ==> f(k) >= 0
    ensures Sum(keys, f) >= 0
    ensures forall k :: k in keys ==> Sum(keys, f) >= f(k)
    decreases |keys|
  {
    if keys != {} {
      var first :| first in keys;
      SumRemove(keys, f, first);
      SumAtLeast(keys - {first}, f);
    }
  }

  lemma {:induction false} SumOfZeros<K(!new)>(keys: set<K>, f: K -> int)
    requires forall k :: k in keys ==> f(k) == 0
    ensures Sum(keys, f) == 0
    decreases |keys|
  {
    if keys != {} {
      var k :| k in keys;
      SumRemove(keys, f, k);
      SumOfZeros(keys - {k}, f);
    }
  }

  lemma {:induction false} SumsBelow<K(!new)>(keys: set<K>, f: K -> int, g: K -> int, bound: K -> int)
    requires forall k :: k in keys ==> f(k) + g(k) <= bound(k)
    ensures Sum(keys, f) + Sum(keys, g) <= Sum(keys, bound)
    decreases |keys|
  {
    if keys != {} {
      var k :| k in keys;
      SumRemove(keys, f, k);
      SumRemove(keys, g, k);
      SumRemove(keys, bound, k);
      SumsBelow(keys - {k}, f, g, bound);
    }
  }

  ghost function SumSeq<K>(ids: seq<K>, f: K -> int): int {
    if ids == [] then 0 else SumSeq(ids[..|ids| - 1], f) + f(ids[|ids| - 1])
  }

  /** The terms of a list of distinct keys change. */
  lemma {:induction false} SumChangeMany<K(!new)>(keys: set<K>, f: K -> int, g: K -> int, ids: seq<K>, delta: K -> int)
    requires forall i, j :: 0 <= i < j < |ids| ==> ids[i] != ids[j]
    requires forall id :: id in ids ==> id in keys && g(id) == f(id) + delta(id)
    requires forall k :: k in keys && k !in ids ==> f(k) == g(k)
    ensures Sum(keys, g) == Sum(keys, f) + SumSeq(ids, delta)
    decreases |ids|
  {
    if ids == [] {
      SumSame(keys, f, g);
    } else {
      var last, rest := ids[|ids| - 1], ids[..|ids| - 1];
      assert ids == rest + [last];
      var h := k => if k == last then f(k) else g(k);
      SumChangeMany(keys, f, h, rest, delta);
      assert keys == keys + {last};
      SumChange(keys, keys, h, g, last);
    }
  }
}
