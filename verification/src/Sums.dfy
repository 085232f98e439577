/** Sums over finite sets, independent of the order in which the elements are visited. */
module Sums {
  ghost function Sum<K>(keys: set<K>, weight: K -> nat): nat {
    if keys == {} then 0
    else
      var k :| k in keys;
      weight(k) + Sum(keys - {k}, weight)
  }

  lemma {:induction false} SumRemove<K>(keys: set<K>, weight: K -> nat, k: K)
    requires k in keys
    ensures Sum(keys, weight) == weight(k) + Sum(keys - {k}, weight)
  {
    var first :| first in keys && Sum(keys, weight) == weight(first) + Sum(keys - {first}, weight);
    if first != k {
      SumRemove(keys - {first}, weight, k);
      SumRemove(keys - {k}, weight, first);
      assert keys - {first} - {k} == keys - {k} - {first};
    }
  }

  lemma SumAdd<K>(keys: set<K>, weight: K -> nat, k: K)
    requires k !in keys
    ensures Sum(keys + {k}, weight) == weight(k) + Sum(keys, weight)
  {
    SumRemove(keys + {k}, weight, k);
    assert keys + {k} - {k} == keys;
  }

  lemma {:induction false} SumCongruent<K>(keys: set<K>, weight: K -> nat, other: K -> nat)
    requires forall k :: k in keys ==> weight(k) == other(k)
    ensures Sum(keys, weight) == Sum(keys, other)
  {
    if keys != {} {
      var k :| k in keys;
      SumRemove(keys, weight, k);
      SumRemove(keys, other, k);
      SumCongruent(keys - {k}, weight, other);
    }
  }

  /** Fewer keys with no greater weights cannot cost more. */
  lemma {:induction false} SumMonotone<K>(fewer: set<K>, keys: set<K>, lighter: K -> nat, weight: K -> nat)
    requires fewer <= keys && forall k :: k in fewer ==> lighter(k) <= weight(k)
    ensures Sum(fewer, lighter) <= Sum(keys, weight)
  {
    if keys != {} {
      var k :| k in keys;
      SumRemove(keys, weight, k);
      if k in fewer {
        SumRemove(fewer, lighter, k);
        SumMonotone(fewer - {k}, keys - {k}, lighter, weight);
      } else {
        SumMonotone(fewer, keys - {k}, lighter, weight);
      }
    }
  }
}
