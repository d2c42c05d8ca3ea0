/** Byte strings, their lexicographic order, and stable sorting by a byte-string key. */
module ByteOrder {

  type Byte = c: char | c as int < 256

  predicate LessEq(a: seq<Byte>, b: seq<Byte>) {
    a == [] || (b != [] && (a[0] < b[0] || (a[0] == b[0] && LessEq(a[1..], b[1..]))))
  }

  lemma {:induction false} Reflexive(a: seq<Byte>)
    ensures LessEq(a, a)
  {
    if a != [] {
      Reflexive(a[1..]);
    }
  }

  lemma {:induction false} Total(a: seq<Byte>, b: seq<Byte>)
    ensures LessEq(a, b) || LessEq(b, a)
  {
    if a != [] && b != [] && a[0] == b[0] {
      Total(a[1..], b[1..]);
    }
  }

  lemma {:induction false} Antisymmetric(a: seq<Byte>, b: seq<Byte>)
    requires LessEq(a, b) && LessEq(b, a)
    ensures a == b
  {
    if a != [] && b != [] {
      Antisymmetric(a[1..], b[1..]);
      assert a == [a[0]] + a[1..] && b == [b[0]] + b[1..];
    }
  }

  lemma {:induction false} Transitive(a: seq<Byte>, b: seq<Byte>, c: seq<Byte>)
    requires LessEq(a, b) && LessEq(b, c)
    ensures LessEq(a, c)
  {
    if a != [] && a[0] == b[0] && b[0] == c[0] {
      Transitive(a[1..], b[1..], c[1..]);
    }
  }

  // ----- Sorting

  function Insert<T>(x: T, items: seq<T>, key: T -> seq<Byte>): seq<T> {
    if items == [] || LessEq(key(x), key(items[0])) then [x] + items
    else [items[0]] + Insert(x, items[1..], key)
  }

  /** The items by key; equal keys keep their order. */
  function Sorted<T>(items: seq<T>, key: T -> seq<Byte>): seq<T> {
    if items == [] then [] else Insert(items[0], Sorted(items[1..], key), key)
  }

  lemma {:induction false} InsertKeeps<T>(x: T, items: seq<T>, key: T -> seq<Byte>)
    ensures multiset(Insert(x, items, key)) == multiset([x] + items)
  {
    if items != [] && !LessEq(key(x), key(items[0])) {
      InsertKeeps(x, items[1..], key);
      assert items == [items[0]] + items[1..];
    }
  }

  lemma {:induction false} SortedKeeps<T>(items: seq<T>, key: T -> seq<Byte>)
    ensures multiset(Sorted(items, key)) == multiset(items)
    ensures |Sorted(items, key)| == |items|
  {
    if items != [] {
      SortedKeeps(items[1..], key);
      InsertKeeps(items[0], Sorted(items[1..], key), key);
      assert items == [items[0]] + items[1..];
    }
    assert |multiset(Sorted(items, key))| == |Sorted(items, key)| && |multiset(items)| == |items|;
  }

  ghost predicate InOrder<T>(items: seq<T>, key: T -> seq<Byte>) {
    forall i :: 0 < i < |items| ==> LessEq(key(items[i - 1]), key(items[i]))
  }

  lemma {:induction false} InsertOrders<T>(x: T, items: seq<T>, key: T -> seq<Byte>)
    requires InOrder(items, key)
    ensures InOrder(Insert(x, items, key), key)
    ensures Insert(x, items, key) != []
    ensures Insert(x, items, key)[0] == if items == [] || LessEq(key(x), key(items[0])) then x else items[0]
  {
    if items != [] && !LessEq(key(x), key(items[0])) {
      InsertOrders(x, items[1..], key);
      Total(key(x), key(items[0]));
      var tail := Insert(x, items[1..], key);
      var all := [items[0]] + tail;
      assert |items| > 1 ==> items[1..][0] == items[1];
      forall i | 0 < i < |all| ensures LessEq(key(all[i - 1]), key(all[i])) {
        assert all[i] == tail[i - 1];
        assert i > 1 ==> all[i - 1] == tail[i - 2];
      }
    }
  }

  lemma {:induction false} SortedOrders<T>(items: seq<T>, key: T -> seq<Byte>)
    ensures InOrder(Sorted(items, key), key)
  {
    if items != [] {
      SortedOrders(items[1..], key);
      InsertOrders(items[0], Sorted(items[1..], key), key);
    }
  }

  lemma {:induction false} HeadIsLeast<T>(items: seq<T>, key: T -> seq<Byte>, i: nat)
    requires InOrder(items, key) && i < |items|
    ensures LessEq(key(items[0]), key(items[i]))
    decreases i
  {
    if i == 0 {
      Reflexive(key(items[0]));
    } else {
      HeadIsLeast(items, key, i - 1);
      Transitive(key(items[0]), key(items[i - 1]), key(items[i]));
    }
  }

  /** Different items have different keys. */
  ghost predicate KeysDiffer<T>(items: multiset<T>, key: T -> seq<Byte>) {
    forall x, y :: x in items && y in items && key(x) == key(y) ==> x == y
  }

  /** When keys differ, there is only one order. */
  lemma {:induction false} OrderIsUnique<T>(a: seq<T>, b: seq<T>, key: T -> seq<Byte>)
    requires InOrder(a, key) && InOrder(b, key) && multiset(a) == multiset(b) && KeysDiffer(multiset(a), key)
    ensures a == b
    decreases |a|
  {
    hide InOrder, KeysDiffer;
    assert |a| == |multiset(a)| == |b|;
    if a != [] {
      SameHead(a, b, key);
      TailOf(a, key);
      TailOf(b, key);
      OrderIsUnique(a[1..], b[1..], key);
      assert a == [a[0]] + a[1..] && b == [b[0]] + b[1..];
    }
  }

  lemma TailOf<T>(items: seq<T>, key: T -> seq<Byte>)
    requires items != [] && InOrder(items, key) && KeysDiffer(multiset(items), key)
    ensures multiset(items[1..]) == multiset(items) - multiset{items[0]}
    ensures InOrder(items[1..], key) && KeysDiffer(multiset(items[1..]), key)
  {
    assert items == [items[0]] + items[1..];
  }

  lemma SameHead<T>(a: seq<T>, b: seq<T>, key: T -> seq<Byte>)
    requires InOrder(a, key) && InOrder(b, key) && multiset(a) == multiset(b) && KeysDiffer(multiset(a), key)
    requires a != [] && b != []
    ensures a[0] == b[0]
  {
    assert a[0] in multiset(b) && b[0] in multiset(a);
    var i :| 0 <= i < |b| && b[i] == a[0];
    var j :| 0 <= j < |a| && a[j] == b[0];
    HeadIsLeast(b, key, i);
    HeadIsLeast(a, key, j);
    Antisymmetric(key(a[0]), key(b[0]));
  }

  /** Equal up to here, and smaller here. */
  ghost predicate SmallerAt(a: seq<Byte>, b: seq<Byte>, n: int) {
    0 <= n < |a| && n < |b| && a[..n] == b[..n] && a[n] < b[n]
  }

  lemma SmallerLater(a: seq<Byte>, b: seq<Byte>, n: int)
    requires a != [] && b != [] && a[0] == b[0]
    ensures SmallerAt(a, b, n + 1) <==> SmallerAt(a[1..], b[1..], n) || (n == -1 && SmallerAt(a, b, 0))
  {
    if 0 <= n < |a| - 1 && n < |b| - 1 {
      assert a[..n + 1] == [a[0]] + a[1..][..n] && b[..n + 1] == [b[0]] + b[1..][..n];
      assert a[1..][..n] == a[..n + 1][1..] && b[1..][..n] == b[..n + 1][1..];
    }
  }

  /** The order of a dictionary: a prefix comes first, and otherwise the first difference decides. */
  lemma {:induction false} DictionaryOrder(a: seq<Byte>, b: seq<Byte>)
    ensures LessEq(a, b) <==> a <= b || exists n :: SmallerAt(a, b, n)
    decreases |a|
  {
    hide SmallerAt;
    if a == [] || b == [] {
      NoneSmaller(a, b);
    } else {
      FirstDecides(a, b);
      if a[0] == b[0] {
        DictionaryOrder(a[1..], b[1..]);
        assert a == [a[0]] + a[1..] && b == [b[0]] + b[1..];
        if exists n :: SmallerAt(a[1..], b[1..], n) {
          var n :| SmallerAt(a[1..], b[1..], n);
          SmallerLater(a, b, n);
        }
        if exists n :: SmallerAt(a, b, n) {
          var n :| SmallerAt(a, b, n);
          SmallerLater(a, b, n - 1);
        }
      }
    }
  }

  lemma NoneSmaller(a: seq<Byte>, b: seq<Byte>)
    requires a == [] || b == []
    ensures forall n :: !SmallerAt(a, b, n)
  {
  }

  lemma FirstDecides(a: seq<Byte>, b: seq<Byte>)
    requires a != [] && b != []
    ensures a[0] < b[0] ==> SmallerAt(a, b, 0)
    ensures a[0] > b[0] ==> forall n :: !SmallerAt(a, b, n)
    ensures a[0] == b[0] ==> !SmallerAt(a, b, 0)
    ensures a[0] != b[0] ==> !(a <= b)
  {
    forall n | 0 < n < |a| && n < |b| && a[..n] == b[..n] ensures a[0] == b[0] {
      assert a[..n][0] == a[0] && b[..n][0] == b[0];
    }
  }
}
