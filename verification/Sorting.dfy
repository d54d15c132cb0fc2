/** What sort.Slice gives when the comparator is a strict order that tells the elements apart:
    a result that does not depend on the order the elements came in. */
module Sorting {

  ghost predicate StrictOrder<T(!new)>(less: (T, T) -> bool) {
    && (forall a :: !less(a, a))
    && (forall a, b, c :: less(a, b) && less(b, c) ==> less(a, c))
  }

  /** Any two different elements are ordered one way or the other. */
  ghost predicate TotalOn<T>(less: (T, T) -> bool, elems: set<T>) {
    forall a, b :: a in elems && b in elems && a != b ==> less(a, b) || less(b, a)
  }

  ghost predicate Below<T>(less: (T, T) -> bool, a: T, s: seq<T>) {
    forall b :: b in s ==> less(a, b)
  }

  /** Strictly ascending, hence without repetition. */
  ghost predicate Sorted<T>(s: seq<T>, less: (T, T) -> bool) {
    s == [] || (Below(less, s[0], s[1..]) && Sorted(s[1..], less))
  }

  ghost function Elements<T>(s: seq<T>): set<T> { set x | x in s }

  function Insert<T>(s: seq<T>, x: T, less: (T, T) -> bool): seq<T> {
    if s == [] || less(x, s[0]) then [x] + s else [s[0]] + Insert(s[1..], x, less)
  }

  /** The items in order. */
  function Sort<T>(items: seq<T>, less: (T, T) -> bool): seq<T> {
    if items == [] then [] else Insert(Sort(items[1..], less), items[0], less)
  }

  lemma {:induction false} InsertElements<T>(s: seq<T>, x: T, less: (T, T) -> bool)
    ensures forall y :: y in Insert(s, x, less) <==> y == x || y in s
    ensures |Insert(s, x, less)| == |s| + 1
  {
    if s != [] && !less(x, s[0]) {
      InsertElements(s[1..], x, less);
      assert s == [s[0]] + s[1..];
    }
  }

  lemma {:induction false} InsertSorted<T(!new)>(s: seq<T>, x: T, less: (T, T) -> bool)
    requires StrictOrder(less) && Sorted(s, less)
    requires forall y :: y in s ==> less(x, y) || less(y, x)
    ensures Sorted(Insert(s, x, less), less)
  {
    if s == [] {
      assert Insert(s, x, less)[1..] == [];
    } else if less(x, s[0]) {
      assert ([x] + s)[1..] == s;
      assert forall y | y in s :: y == s[0] || y in s[1..];
    } else {
      InsertSorted(s[1..], x, less);
      InsertElements(s[1..], x, less);
      assert Insert(s, x, less)[1..] == Insert(s[1..], x, less);
    }
  }

  lemma {:induction false} SortOk<T(!new)>(items: seq<T>, less: (T, T) -> bool)
    requires StrictOrder(less) && TotalOn(less, Elements(items))
    requires forall i, j :: 0 <= i < j < |items| ==> items[i] != items[j]
    ensures Sorted(Sort(items, less), less)
    ensures Elements(Sort(items, less)) == Elements(items)
    ensures |Sort(items, less)| == |items|
  {
    if items != [] {
      var tail := items[1..];
      assert forall x :: x in items <==> x == items[0] || x in tail;
      assert Elements(tail) <= Elements(items);
      SortOk(tail, less);
      assert forall y | y in Sort(tail, less) :: y in Elements(Sort(tail, less));
      assert forall y | y in tail :: y != items[0];
      InsertElements(Sort(tail, less), items[0], less);
      InsertSorted(Sort(tail, less), items[0], less);
      forall x
        ensures x in Sort(items, less) <==> x in items
      {
        assert x in Elements(Sort(tail, less)) <==> x in Elements(tail);
      }
    }
  }

  /** Two ascending lists of the same elements are equal. */
  lemma {:induction false} SortedUnique<T(!new)>(a: seq<T>, b: seq<T>, less: (T, T) -> bool)
    requires StrictOrder(less) && Sorted(a, less) && Sorted(b, less)
    requires Elements(a) == Elements(b)
    ensures a == b
  {
    assert forall x :: x in a <==> x in Elements(a);
    assert forall x :: x in b <==> x in Elements(b);
    assert a == [] <==> b == [] by {
      assert a != [] ==> a[0] in b;
      assert b != [] ==> b[0] in a;
    }
    if a != [] {
      var x, y := a[0], b[0];
      assert y in a;
      assert x == y || less(x, y);
      assert x in b;
      assert x == y || less(y, x);
      forall x
        ensures x in a[1..] <==> x in b[1..]
      {
        assert x in Elements(a) <==> x in Elements(b);
        assert x in a <==> x == a[0] || x in a[1..];
        assert x in b <==> x == b[0] || x in b[1..];
        assert x in a[1..] ==> x != a[0];
        assert x in b[1..] ==> x != b[0];
      }
      assert Elements(a[1..]) == Elements(b[1..]);
      SortedUnique(a[1..], b[1..], less);
      assert a == [a[0]] + a[1..] && b == [b[0]] + b[1..];
    }
  }

  /** Later elements are larger, and differ. */
  lemma {:induction false} SortedPairs<T>(s: seq<T>, less: (T, T) -> bool, i: nat, j: nat)
    requires Sorted(s, less) && i < j < |s|
    ensures less(s[i], s[j])
  {
    if i == 0 {
      assert s[j] in s[1..];
    } else {
      SortedPairs(s[1..], less, i - 1, j - 1);
    }
  }
}
