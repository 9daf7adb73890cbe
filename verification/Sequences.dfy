// Lists without repetitions.
module Sequences {

  ghost predicate NoRepeats<T>(s: seq<T>) {
    forall i, j :: 0 <= i < j < |s| ==> s[i] != s[j]
  }

  ghost predicate DistinctBy<T, K>(s: seq<T>, key: T -> K) {
    forall i, j :: 0 <= i < j < |s| ==> key(s[i]) != key(s[j])
  }

  function Concat<T, U>(f: T -> seq<U>, s: seq<T>): seq<U> {
    if s == [] then [] else Concat(f, s[..|s| - 1]) + f(s[|s| - 1])
  }

  lemma {:induction false} ConcatMember<T, U>(f: T -> seq<U>, s: seq<T>, x: U)
    ensures x in Concat(f, s) <==> exists t :: t in s && x in f(t)
  {
    if s != [] {
      var front, last := s[..|s| - 1], s[|s| - 1];
      ConcatMember(f, front, x);
      assert s == front + [last];
    }
  }

  function Elements<T>(s: seq<T>): set<T> { set x | x in s }

  lemma NoElements<T>(s: seq<T>)
    ensures Elements(s) == {} <==> s == []
  {
    if s != [] { assert s[0] in Elements(s); }
  }

  lemma NoRepeatsConcat<T(!new)>(a: seq<T>, b: seq<T>)
    requires NoRepeats(a) && NoRepeats(b) && forall k :: k in a ==> k !in b
    ensures NoRepeats(a + b) && forall k :: k in a + b <==> k in a || k in b
  {
    var s := a + b;
    forall i, j | 0 <= i < j < |s| ensures s[i] != s[j] {
      assert i < |a| <= j ==> s[i] in a && s[j] in b;
    }
  }

  lemma {:induction false} NoRepeatsBound<T(!new)>(s: seq<T>, all: set<T>)
    requires NoRepeats(s) && forall x :: x in s ==> x in all
    ensures |s| <= |all|
  {
    if s != [] {
      var front, last := s[..|s| - 1], s[|s| - 1];
      forall x | x in front ensures x in all - {last} {
        var i :| 0 <= i < |front| && front[i] == x;
        assert s[i] == x;
      }
      NoRepeatsBound(front, all - {last});
    }
  }

  lemma {:induction false} NoRepeatsCount<T(!new)>(s: seq<T>)
    requires NoRepeats(s)
    ensures |Elements(s)| == |s|
  {
    if s != [] {
      var front, last := s[..|s| - 1], s[|s| - 1];
      NoRepeatsCount(front);
      assert Elements(s) == Elements(front) + {last};
    }
  }

  lemma {:induction false} Enumerate<T(!new)>(all: set<T>) returns (s: seq<T>)
    ensures NoRepeats(s) && (forall x :: x in s <==> x in all) && |s| == |all|
    decreases all
  {
    s := [];
    if all != {} {
      var x :| x in all;
      s := Enumerate(all - {x});
      s := s + [x];
    }
  }

  lemma {:induction false} OncePerElement<T(!new)>(s: seq<T>, x: T)
    requires NoRepeats(s)
    ensures multiset(s)[x] == if x in s then 1 else 0
  {
    if s != [] {
      var front, last := s[..|s| - 1], s[|s| - 1];
      assert s == front + [last];
      OncePerElement(front, x);
      assert forall k :: 0 <= k < |front| ==> s[k] != last;
    }
  }

  // Two lists without repetitions that have the same elements.
  lemma SameElements<T(!new)>(s: seq<T>, t: seq<T>)
    requires NoRepeats(s) && NoRepeats(t) && forall x :: x in s <==> x in t
    ensures multiset(s) == multiset(t)
  {
    forall x | x in multiset(s) || x in multiset(t) ensures multiset(s)[x] == multiset(t)[x] {
      OncePerElement(s, x);
      OncePerElement(t, x);
    }
  }
}
