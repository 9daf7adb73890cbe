// sort.Slice over slices whose elements have distinct keys: the result depends
// only on which elements there are.
module Sorting {
  import opened Text
  import opened Sequences

  predicate Sorted<T>(s: seq<T>, key: T -> string, less: (string, string) -> bool) {
    forall i, j :: 0 <= i < j < |s| ==> less(key(s[i]), key(s[j]))
  }

  // A strict total order.
  ghost predicate IsOrder(less: (string, string) -> bool) {
    && (forall a :: !less(a, a))
    && (forall a, b :: less(a, b) || a == b || less(b, a))
    && (forall a, b, c :: less(a, b) && less(b, c) ==> less(a, c))
  }

  function Insert<T>(x: T, s: seq<T>, key: T -> string, less: (string, string) -> bool): seq<T> {
    if s == [] || less(key(x), key(s[0])) then [x] + s else [s[0]] + Insert(x, s[1..], key, less)
  }

  function Sort<T>(s: seq<T>, key: T -> string, less: (string, string) -> bool): seq<T> {
    if s == [] then [] else Insert(s[0], Sort(s[1..], key, less), key, less)
  }

  lemma {:induction false} InsertPermutes<T>(x: T, s: seq<T>, key: T -> string, less: (string, string) -> bool)
    ensures multiset(Insert(x, s, key, less)) == multiset(s) + multiset{x}
  {
    if s != [] && !less(key(x), key(s[0])) {
      InsertPermutes(x, s[1..], key, less);
      assert s == [s[0]] + s[1..];
    }
  }

  lemma {:induction false} InsertSorted<T>(x: T, s: seq<T>, key: T -> string, less: (string, string) -> bool)
    requires IsOrder(less) && Sorted(s, key, less) && forall y :: y in s ==> key(y) != key(x)
    ensures Sorted(Insert(x, s, key, less), key, less)
  {
    if s != [] {
      if less(key(x), key(s[0])) {
        assert forall i :: 0 < i < |s| ==> less(key(s[0]), key(s[i]));
      } else {
        InsertSorted(x, s[1..], key, less);
        InsertPermutes(x, s[1..], key, less);
        forall y | y in Insert(x, s[1..], key, less) ensures less(key(s[0]), key(y)) {
          assert y in multiset(Insert(x, s[1..], key, less));
        }
      }
    }
  }

  lemma {:induction false} SortPermutes<T>(s: seq<T>, key: T -> string, less: (string, string) -> bool)
    ensures multiset(Sort(s, key, less)) == multiset(s)
  {
    if s != [] {
      SortPermutes(s[1..], key, less);
      InsertPermutes(s[0], Sort(s[1..], key, less), key, less);
      assert s == [s[0]] + s[1..];
    }
  }

  lemma {:induction false} SortSorts<T>(s: seq<T>, key: T -> string, less: (string, string) -> bool)
    requires IsOrder(less) && DistinctBy(s, key)
    ensures Sorted(Sort(s, key, less), key, less)
  {
    if s != [] {
      SortSorts(s[1..], key, less);
      SortPermutes(s[1..], key, less);
      forall y | y in Sort(s[1..], key, less) ensures key(y) != key(s[0]) {
        assert y in multiset(s[1..]);
      }
      InsertSorted(s[0], Sort(s[1..], key, less), key, less);
    }
  }

  lemma HeadLeast<T>(s: seq<T>, x: T, key: T -> string, less: (string, string) -> bool)
    requires Sorted(s, key, less) && x in s
    ensures s != [] && (x == s[0] || less(key(s[0]), key(x)))
  {
  }

  lemma SortedHeads<T>(a: seq<T>, b: seq<T>, key: T -> string, less: (string, string) -> bool)
    requires IsOrder(less) && Sorted(a, key, less) && Sorted(b, key, less)
    requires a != [] && b != [] && a[0] in b && b[0] in a
    ensures a[0] == b[0]
  {
    HeadLeast(a, b[0], key, less);
    HeadLeast(b, a[0], key, less);
  }

  lemma RestPermutes<T>(a: seq<T>, b: seq<T>)
    requires a != [] && b != [] && a[0] == b[0] && multiset(a) == multiset(b)
    ensures multiset(a[1..]) == multiset(b[1..])
  {
    assert a == [a[0]] + a[1..] && b == [b[0]] + b[1..];
    assert multiset(a[1..]) == multiset(a) - multiset{a[0]} && multiset(b[1..]) == multiset(b) - multiset{b[0]};
  }

  // There is only one sorted list of given elements.
  lemma {:induction false} SortedUnique<T>(a: seq<T>, b: seq<T>, key: T -> string, less: (string, string) -> bool)
    requires IsOrder(less) && Sorted(a, key, less) && Sorted(b, key, less) && multiset(a) == multiset(b)
    ensures a == b
  {
    assert |multiset(a)| == |multiset(b)|;
    if a != [] {
      assert a[0] in multiset(b) && b[0] in multiset(a);
      SortedHeads(a, b, key, less);
      RestPermutes(a, b);
      SortedUnique(a[1..], b[1..], key, less);
    }
  }

  // ---- the two orders in use ------------------------------------------------------------

  // Shorter first, then by Go's string order.
  predicate ShorterOrLess(a: string, b: string) {
    if |a| != |b| then |a| < |b| else Less(a, b)
  }

  lemma StringOrders()
    ensures IsOrder(Less) && IsOrder(ShorterOrLess)
  {
    forall a, b
      ensures (Less(a, b) || a == b || Less(b, a)) && !(Less(a, b) && Less(b, a)) && (a == b ==> !Less(a, b))
    {
      LessTotal(a, b);
    }
    forall a, b, c | Less(a, b) && Less(b, c) ensures Less(a, c) {
      LessTransitive(a, b, c);
    }
  }
}
