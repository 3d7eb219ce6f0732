/** Sums of weights over finite sets. */
module Sums {
  import opened RouteCount

  ghost function Total<K>(keys: set<K>, w: K -> int): int {
    if keys == {} then 0
    else var k := Pick(keys); w(k) + Total(keys - {k}, w)
  }

  lemma {:induction false} TotalRemove<K>(keys: set<K>, w: K -> int, k: K)
    requires k in keys
    ensures Total(keys, w) == w(k) + Total(keys - {k}, w)
    decreases |keys|
  {
    var x := Pick(keys);
    if x != k {
      TotalRemove(keys - {x}, w, k);
      TotalRemove(keys - {k}, w, x);
      assert keys - {x} - {k} == keys - {k} - {x};
    }
  }

  lemma {:induction false} TotalSame<K>(keys: set<K>, w: K -> int, v: K -> int)
    requires forall k :: k in keys ==> w(k) == v(k)
    ensures Total(keys, w) == Total(keys, v)
    decreases |keys|
  {
    if keys != {} {
      var k := Pick(keys);
      TotalSame(keys - {k}, w, v);
    }
  }

  lemma {:induction false} TotalNonNegative<K>(keys: set<K>, w: K -> int)
    requires forall k :: k in keys ==> w(k) >= 0
    ensures Total(keys, w) >= 0
    ensures (forall k :: k in keys ==> w(k) == 0) ==> Total(keys, w) == 0
    decreases |keys|
  {
    if keys != {} {
      TotalNonNegative(keys - {Pick(keys)}, w);
    }
  }

  /** Changing the weight of one key changes the sum by the same amount. */
  lemma {:induction false} TotalPoint<K>(keys: set<K>, w: K -> int, k: K, v: K -> int)
    requires k !in keys ==> w(k) == 0
    requires forall x :: x in keys && x != k ==> v(x) == w(x)
    ensures Total(keys + {k}, v) == Total(keys, w) - w(k) + v(k)
  {
    TotalRemove(keys + {k}, v, k);
    TotalSame(keys - {k}, w, v);
    assert keys + {k} - {k} == keys - {k};
    if k in keys {
      TotalRemove(keys, w, k);
    } else {
      assert keys - {k} == keys;
    }
  }
}
