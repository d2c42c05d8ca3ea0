/** Finite sums, for quotas. */
module Sums {

  ghost function Sum<K>(keys: set<K>, weight: K -> nat): nat {
    if keys == {} then 0
    else
      var k :| k in keys;
      weight(k) + Sum(keys - {k}, weight)
  }

  lemma {:induction false} SumRemove<K>(keys: set<K>, weight: K -> nat, k: K)
    requires k in keys
    ensures Sum(keys, weight) == weight(k) + Sum(keys - {k}, weight)
    decreases |keys|
  {
    var j :| j in keys && Sum(keys, weight) == weight(j) + Sum(keys - {j}, weight);
    if j != k {
      SumRemove(keys - {j}, weight, k);
      SumRemove(keys - {k}, weight, j);
      assert keys - {j} - {k} == keys - {k} - {j};
    }
  }

  lemma {:induction false} SumMonotone<K>(keys: set<K>, low: K -> nat, high: K -> nat)
    requires forall k :: k in keys ==> low(k) <= high(k)
    ensures Sum(keys, low) <= Sum(keys, high)
    decreases |keys|
  {
    if keys != {} {
      var k :| k in keys;
      SumRemove(keys, low, k);
      SumRemove(keys, high, k);
      SumMonotone(keys - {k}, low, high);
    }
  }

  lemma SumSame<K>(keys: set<K>, one: K -> nat, other: K -> nat)
    requires forall k :: k in keys ==> one(k) == other(k)
    ensures Sum(keys, one) == Sum(keys, other)
  {
  }

  lemma {:induction false} SumZero<K>(keys: set<K>, weight: K -> nat)
    requires forall k :: k in keys ==> weight(k) == 0
    ensures Sum(keys, weight) == 0
    decreases |keys|
  {
    if keys != {} {
      var k :| k in keys;
      SumRemove(keys, weight, k);
      SumZero(keys - {k}, weight);
    }
  }

  /** Changing the weight of one key changes the sum by the difference. */
  lemma SumChange<K>(keys: set<K>, before: K -> nat, after: K -> nat, k: K)
    requires k in keys && forall j :: j in keys && j != k ==> before(j) == after(j)
    ensures Sum(keys, after) + before(k) == Sum(keys, before) + after(k)
  {
    SumRemove(keys, before, k);
    SumRemove(keys, after, k);
    SumSame(keys - {k}, before, after);
  }

  /** A new key adds its weight. */
  lemma SumInsert<K>(keys: set<K>, before: K -> nat, after: K -> nat, k: K)
    requires k !in keys && forall j :: j in keys ==> before(j) == after(j)
    ensures Sum(keys + {k}, after) == Sum(keys, before) + after(k)
  {
    SumRemove(keys + {k}, after, k);
    assert keys + {k} - {k} == keys;
    SumSame(keys, before, after);
  }

  /** A sum splits over a part of its keys and the rest. */
  lemma {:induction false} SumSplit<K>(keys: set<K>, part: set<K>, weight: K -> nat)
    requires part <= keys
    ensures Sum(keys, weight) == Sum(part, weight) + Sum(keys - part, weight)
    decreases |part|
  {
    if part == {} {
      assert keys - part == keys;
    } else {
      var k :| k in part;
      SumRemove(keys, weight, k);
      SumRemove(part, weight, k);
      SumSplit(keys - {k}, part - {k}, weight);
      assert keys - {k} - (part - {k}) == keys - part;
    }
  }
}
