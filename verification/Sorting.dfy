/** Insertion into a sequence ordered by a number, as the stable sort of the host language leaves it. */
module Sorting {

  predicate Increasing<T>(s: seq<T>, key: T -> int) {
    forall i, j | 0 <= i < j < |s| :: key(s[i]) < key(s[j])
  }

  predicate Different<T>(s: seq<T>, key: T -> int) {
    forall i, j | 0 <= i < j < |s| :: key(s[i]) != key(s[j])
  }

  function Insert<T>(x: T, s: seq<T>, key: T -> int): seq<T> {
    if s == [] || key(x) <= key(s[0]) then [x] + s else [s[0]] + Insert(x, s[1..], key)
  }

  function Sorted<T>(s: seq<T>, key: T -> int): seq<T> {
    if s == [] then [] else Insert(s[0], Sorted(s[1..], key), key)
  }

  lemma {:induction false} InsertHas<T(!new)>(x: T, s: seq<T>, key: T -> int)
    ensures multiset(Insert(x, s, key)) == multiset(s) + multiset{x}
    ensures |Insert(x, s, key)| == |s| + 1
  {
    if s != [] && key(x) > key(s[0]) {
      InsertHas(x, s[1..], key);
      assert s == [s[0]] + s[1..];
    }
  }

  /** Sorting keeps every element, as often as it occurs. */
  lemma {:induction false} SortedHas<T(!new)>(s: seq<T>, key: T -> int)
    ensures multiset(Sorted(s, key)) == multiset(s)
    ensures |Sorted(s, key)| == |s|
  {
    if s != [] {
      SortedHas(s[1..], key);
      InsertHas(s[0], Sorted(s[1..], key), key);
      assert s == [s[0]] + s[1..];
    }
  }

  lemma SameMembers<T(!new)>(a: seq<T>, b: seq<T>)
    requires multiset(a) == multiset(b)
    ensures forall x :: x in a <==> x in b
  {
    forall x ensures x in a <==> x in b {
      assert x in multiset(a) <==> x in a;
      assert x in multiset(b) <==> x in b;
    }
  }

  lemma SortedMembers<T(!new)>(s: seq<T>, key: T -> int)
    ensures forall x :: x in Sorted(s, key) <==> x in s
  {
    SortedHas(s, key);
    hide Sorted;
    SameMembers(Sorted(s, key), s);
  }

  lemma InsertMembers<T(!new)>(x: T, s: seq<T>, key: T -> int)
    ensures forall y :: y in Insert(x, s, key) <==> y == x || y in s
  {
    InsertHas(x, s, key);
    hide Insert;
    forall y ensures y in Insert(x, s, key) <==> y == x || y in s {
      assert y in multiset(Insert(x, s, key)) <==> y in multiset(s) + multiset{x};
    }
  }

  lemma Prepend<T(!new)>(x: T, s: seq<T>, key: T -> int)
    requires Increasing(s, key) && forall y | y in s :: key(x) < key(y)
    ensures Increasing([x] + s, key)
  {
    forall k | 0 <= k < |s| ensures key(x) < key(s[k]) {
      assert s[k] in s;
    }
  }

  lemma Tail<T(!new)>(s: seq<T>, key: T -> int)
    requires s != [] && Increasing(s, key)
    ensures Increasing(s[1..], key) && forall y | y in s[1..] :: key(s[0]) < key(y)
  {
  }

  lemma UnfoldInsert<T(!new)>(x: T, s: seq<T>, key: T -> int)
    requires s != [] && key(x) > key(s[0])
    ensures Insert(x, s, key) == [s[0]] + Insert(x, s[1..], key)
  {
  }

  lemma {:induction false} InsertIncreasing<T(!new)>(x: T, s: seq<T>, key: T -> int)
    requires Increasing(s, key) && forall y | y in s :: key(y) != key(x)
    ensures Increasing(Insert(x, s, key), key)
  {
    if s != [] {
      assert s[0] in s;
      assert s == [s[0]] + s[1..];
      Tail(s, key);
    }
    if s == [] || key(x) <= key(s[0]) {
      hide Increasing;
      Prepend(x, s, key);
    } else {
      UnfoldInsert(x, s, key);
      hide Increasing, Insert;
      InsertIncreasing(x, s[1..], key);
      InsertMembers(x, s[1..], key);
      Prepend(s[0], Insert(x, s[1..], key), key);
    }
  }

  lemma UnfoldSorted<T(!new)>(s: seq<T>, key: T -> int)
    requires s != []
    ensures Sorted(s, key) == Insert(s[0], Sorted(s[1..], key), key)
  {
    hide Insert;
  }

  lemma DifferentTail<T(!new)>(s: seq<T>, key: T -> int)
    requires s != []
    ensures Different(s, key) <==> Different(s[1..], key) && forall y | y in s[1..] :: key(y) != key(s[0])
  {
    var t := s[1..];
    assert forall k | 0 <= k < |t| :: t[k] == s[k + 1];
    if Different(s, key) {
      forall y | y in t ensures key(y) != key(s[0]) {
        var k :| 0 <= k < |t| && t[k] == y;
        assert s[k + 1] == y;
      }
    } else {
      var i, j :| 0 <= i < j < |s| && key(s[i]) == key(s[j]);
      assert t[j - 1] == s[j] && s[j] in t;
      if i > 0 { assert t[i - 1] == s[i]; }
    }
  }

  /** Elements with different keys come out strictly increasing. */
  lemma {:induction false} SortedIncreasing<T(!new)>(s: seq<T>, key: T -> int)
    requires Different(s, key)
    ensures Increasing(Sorted(s, key), key)
  {
    if s != [] {
      DifferentTail(s, key);
      UnfoldSorted(s, key);
      hide Insert, Sorted, Different, Increasing;
      SortedIncreasing(s[1..], key);
      SortedMembers(s[1..], key);
      InsertIncreasing(s[0], Sorted(s[1..], key), key);
    }
  }

  lemma {:induction false} InsertDiffers<T(!new)>(x: T, s: seq<T>, key: T -> int)
    requires Different(Insert(x, s, key), key)
    ensures Different(s, key) && forall y | y in s :: key(y) != key(x)
  {
    var inserted := Insert(x, s, key);
    DifferentTail(inserted, key);
    if s == [] || key(x) <= key(s[0]) {
      assert inserted[1..] == s && inserted[0] == x;
    } else {
      UnfoldInsert(x, s, key);
      var rest := Insert(x, s[1..], key);
      assert inserted[1..] == rest && inserted[0] == s[0];
      hide Insert, Different;
      InsertDiffers(x, s[1..], key);
      InsertMembers(x, s[1..], key);
      DifferentTail(s, key);
      assert s == [s[0]] + s[1..];
    }
  }

  /** And only those do. */
  lemma {:induction false} OnlyDifferentSort<T(!new)>(s: seq<T>, key: T -> int)
    requires Different(Sorted(s, key), key)
    ensures Different(s, key)
  {
    if s != [] {
      UnfoldSorted(s, key);
      hide Insert, Sorted, Different;
      InsertDiffers(s[0], Sorted(s[1..], key), key);
      OnlyDifferentSort(s[1..], key);
      SortedMembers(s[1..], key);
      DifferentTail(s, key);
    }
  }

  lemma IncreasingIsDifferent<T(!new)>(s: seq<T>, key: T -> int)
    requires Increasing(s, key)
    ensures Different(s, key)
  {
  }

  /** An increasing sequence is determined by its elements. */
  lemma {:induction false} SameElements<T(!new)>(a: seq<T>, b: seq<T>, key: T -> int)
    requires Increasing(a, key) && Increasing(b, key) && forall x :: x in a <==> x in b
    ensures a == b
  {
    assert b != [] ==> b[0] in b;
    if a != [] {
      assert a[0] in a;
      HeadsAgree(a, b, key);
      TailsAgree(a, b, key);
      Tail(a, key);
      Tail(b, key);
      hide Increasing;
      SameElements(a[1..], b[1..], key);
      assert a == [a[0]] + a[1..] && b == [b[0]] + b[1..];
    }
  }

  lemma HeadsAgree<T(!new)>(a: seq<T>, b: seq<T>, key: T -> int)
    requires a != [] && b != [] && Increasing(a, key) && Increasing(b, key) && forall x :: x in a <==> x in b
    ensures a[0] == b[0]
  {
    assert a[0] in a && b[0] in b;
    var i :| 0 <= i < |b| && b[i] == a[0];
    var j :| 0 <= j < |a| && a[j] == b[0];
  }

  lemma InTail<T(!new)>(a: seq<T>, b: seq<T>, key: T -> int, x: T)
    requires a != [] && b != [] && a[0] == b[0] && Increasing(a, key) && x in a[1..] && forall y | y in a :: y in b
    ensures x in b[1..]
  {
    Tail(a, key);
    assert a == [a[0]] + a[1..] && x in a;
    assert b == [b[0]] + b[1..];
    assert key(x) != key(b[0]);
  }

  lemma TailsAgree<T(!new)>(a: seq<T>, b: seq<T>, key: T -> int)
    requires a != [] && b != [] && a[0] == b[0] && Increasing(a, key) && Increasing(b, key) && forall x :: x in a <==> x in b
    ensures forall x :: x in a[1..] <==> x in b[1..]
  {
    forall x | x in a[1..] ensures x in b[1..] {
      InTail(a, b, key, x);
    }
    forall x | x in b[1..] ensures x in a[1..] {
      InTail(b, a, key, x);
    }
  }

  // ---------------------------------------------------------------- elements with equal keys

  predicate NonDecreasing<T>(s: seq<T>, key: T -> int) {
    forall i, j | 0 <= i < j < |s| :: key(s[i]) <= key(s[j])
  }

  /** The elements of one key, in their order. */
  function OfKey<T>(s: seq<T>, key: T -> int, k: int): seq<T> {
    if s == [] then [] else (if key(s[0]) == k then [s[0]] else []) + OfKey(s[1..], key, k)
  }

  lemma PrependNonDecreasing<T(!new)>(x: T, s: seq<T>, key: T -> int)
    requires NonDecreasing(s, key) && forall y | y in s :: key(x) <= key(y)
    ensures NonDecreasing([x] + s, key)
  {
    forall k | 0 <= k < |s| ensures key(x) <= key(s[k]) {
      assert s[k] in s;
    }
  }

  lemma TailNonDecreasing<T(!new)>(s: seq<T>, key: T -> int)
    requires s != [] && NonDecreasing(s, key)
    ensures NonDecreasing(s[1..], key) && forall y | y in s :: key(s[0]) <= key(y)
  {
  }

  lemma {:induction false} InsertNonDecreasing<T(!new)>(x: T, s: seq<T>, key: T -> int)
    requires NonDecreasing(s, key)
    ensures NonDecreasing(Insert(x, s, key), key)
  {
    if s != [] { TailNonDecreasing(s, key); }
    if s == [] || key(x) <= key(s[0]) {
      hide NonDecreasing;
      PrependNonDecreasing(x, s, key);
    } else {
      UnfoldInsert(x, s, key);
      hide NonDecreasing, Insert;
      InsertNonDecreasing(x, s[1..], key);
      InsertMembers(x, s[1..], key);
      PrependNonDecreasing(s[0], Insert(x, s[1..], key), key);
    }
  }

  lemma {:induction false} InsertKeepsOrder<T(!new)>(x: T, s: seq<T>, key: T -> int, k: int)
    requires NonDecreasing(s, key)
    ensures OfKey(Insert(x, s, key), key, k) == (if key(x) == k then [x] else []) + OfKey(s, key, k)
  {
    if s == [] || key(x) <= key(s[0]) {
      assert Insert(x, s, key)[1..] == s;
    } else {
      UnfoldInsert(x, s, key);
      TailNonDecreasing(s, key);
      InsertKeepsOrder(x, s[1..], key, k);
      var rest := Insert(x, s[1..], key);
      assert ([s[0]] + rest)[1..] == rest;
      assert key(x) == k ==> key(s[0]) != k;
      assert [] + OfKey(rest, key, k) == OfKey(rest, key, k) && [] + OfKey(s[1..], key, k) == OfKey(s[1..], key, k);
      hide Insert;
    }
  }

  /** Sorting leaves keys in order, and elements of one key in the order they had. */
  lemma {:induction false} SortedIsStable<T(!new)>(s: seq<T>, key: T -> int, k: int)
    ensures NonDecreasing(Sorted(s, key), key)
    ensures OfKey(Sorted(s, key), key, k) == OfKey(s, key, k)
  {
    if s != [] {
      UnfoldSorted(s, key);
      SortedIsStable(s[1..], key, k);
      hide Insert, Sorted, NonDecreasing;
      InsertNonDecreasing(s[0], Sorted(s[1..], key), key);
      InsertKeepsOrder(s[0], Sorted(s[1..], key), key, k);
    }
  }
}
