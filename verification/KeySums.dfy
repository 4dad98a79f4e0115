/** Sums and greatest values over the keys of a dict; the order of a dict's keys does not matter. */
module KeySums {

  ghost function SumOver<K(!new)>(keys: set<K>, f: K -> real): real {
    if keys == {} then 0.0 else var k :| k in keys; f(k) + SumOver(keys - {k}, f)
  }

  lemma SumOfNothing<K(!new)>(f: K -> real)
    ensures SumOver({}, f) == 0.0
  {
  }

  /** Any key can be taken out first. */
  lemma {:induction false} TakeOut<K(!new)>(keys: set<K>, f: K -> real, k: K)
    requires k in keys
    ensures SumOver(keys, f) == f(k) + SumOver(keys - {k}, f)
    decreases |keys|
  {
    var c :| c in keys && SumOver(keys, f) == f(c) + SumOver(keys - {c}, f);
    if c != k {
      TakeOut(keys - {c}, f, k);
      TakeOut(keys - {k}, f, c);
      assert keys - {c} - {k} == keys - {k} - {c};
    }
  }

  /** Fewer keys with no larger values give no larger sum, when nothing is negative. */
  lemma {:induction false} SumGrows<K(!new)>(some: set<K>, f: K -> real, all: set<K>, g: K -> real)
    requires some <= all && (forall k | k in some :: f(k) <= g(k)) && (forall k | k in all :: g(k) >= 0.0)
    ensures SumOver(some, f) <= SumOver(all, g)
    decreases |all|
  {
    if all != {} {
      var k :| k in all;
      TakeOut(all, g, k);
      if k in some {
        TakeOut(some, f, k);
        SumGrows(some - {k}, f, all - {k}, g);
      } else {
        SumGrows(some, f, all - {k}, g);
      }
    }
  }

  /** The greatest value at a key, 0 when every value is below 0 or there is no key. */
  ghost predicate IsGreatest<K(!new)>(keys: set<K>, f: K -> real, m: real) {
    (forall k | k in keys :: f(k) <= m) && m >= 0.0 && (m == 0.0 || exists k :: k in keys && f(k) == m)
  }

  ghost function Greatest<K(!new)>(keys: set<K>, f: K -> real): (m: real)
    ensures IsGreatest(keys, f, m)
  {
    if keys == {} then 0.0
    else
      var k :| k in keys;
      var rest := Greatest(keys - {k}, f);
      assert keys == (keys - {k}) + {k};
      if f(k) > rest then f(k) else rest
  }

  lemma GreatestIsUnique<K(!new)>(keys: set<K>, f: K -> real, m: real)
    requires IsGreatest(keys, f, m)
    ensures m == Greatest(keys, f)
  {
  }
}
