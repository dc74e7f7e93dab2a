/** Sequences without repetition, and the sets of their elements. */
module Sequences {

  function Elements<T(==)>(s: seq<T>): set<T> {
    set x | x in s
  }

  predicate Distinct<T(==)>(s: seq<T>) {
    forall i, j | 0 <= i < j < |s| :: s[i] != s[j]
  }

  lemma {:induction false} SubsetCount<T>(a: set<T>, b: set<T>)
    requires a <= b
    ensures |a| <= |b|
    decreases |a|
  {
    if a != {} {
      var x :| x in a;
      SubsetCount(a - {x}, b - {x});
    }
  }

  lemma SameCount<T>(a: set<T>, b: set<T>)
    requires a <= b && |a| == |b|
    ensures a == b
  {
    if x :| x in b && x !in a {
      SubsetCount(a, b - {x});
    }
  }

  lemma ElementsOfFront<T>(s: seq<T>)
    requires s != []
    ensures Elements(s) == Elements(s[..|s| - 1]) + {s[|s| - 1]}
  {}

  /** A sequence has at most as many elements as positions, and as many exactly without repetition. */
  lemma {:induction false} DistinctCount<T>(s: seq<T>)
    ensures |Elements(s)| <= |s|
    ensures Distinct(s) <==> |Elements(s)| == |s|
    decreases |s|
  {
    if s == [] {
      assert Elements(s) == {};
    } else {
      var front, last := s[..|s| - 1], s[|s| - 1];
      DistinctCount(front);
      ElementsOfFront(s);
      if last in front {
        var i :| 0 <= i < |front| && front[i] == last;
        assert s[i] == s[|s| - 1];
        assert Elements(s) == Elements(front);
      } else {
        assert last !in Elements(front);
        if Distinct(front) {
          forall i, j | 0 <= i < j < |s|
            ensures s[i] != s[j]
          {
            assert front[i] == s[i];
            assert j < |front| ==> front[j] == s[j];
          }
        }
        if Distinct(s) {
          assert Distinct(front);
        }
      }
    }
  }

  /** Without repetition every element counts once. */
  lemma {:induction false} CountsAtMostOne<T>(s: seq<T>)
    ensures Distinct(s) <==> forall x: T :: multiset(s)[x] <= 1
    decreases |s|
  {
    if s != [] {
      var front, last := s[..|s| - 1], s[|s| - 1];
      CountsAtMostOne(front);
      assert s == front + [last];
      assert multiset(s) == multiset(front) + multiset{last};
      if Distinct(s) {
        assert Distinct(front);
        forall i | 0 <= i < |front|
          ensures front[i] != last
        {
          assert s[i] != s[|s| - 1];
        }
        assert multiset(front)[last] == 0;
      }
      if forall x: T :: multiset(s)[x] <= 1 {
        forall x: T
          ensures multiset(front)[x] <= 1
        {
          assert multiset(s)[x] <= 1;
        }
        assert multiset(s)[last] <= 1;
        assert last !in front;
        forall i, j | 0 <= i < j < |s|
          ensures s[i] != s[j]
        {
          assert front[i] == s[i];
          assert j < |front| ==> front[j] == s[j];
        }
      }
    }
  }

  /** Two sequences without repetition and with the same elements are permutations of each other. */
  lemma SameElementsPermute<T>(s: seq<T>, t: seq<T>)
    requires Distinct(s) && Elements(s) == Elements(t)
    ensures multiset(s) == multiset(t) <==> Distinct(t)
  {
    CountsAtMostOne(s);
    CountsAtMostOne(t);
    if Distinct(t) {
      forall x: T
        ensures multiset(s)[x] == multiset(t)[x]
      {
        assert x in s <==> x in Elements(s);
        assert x in t <==> x in Elements(t);
        assert x in multiset(s) <==> x in s;
        assert x in multiset(t) <==> x in t;
      }
    }
  }

  lemma PermutationHasSameElements<T>(s: seq<T>, t: seq<T>)
    requires multiset(s) == multiset(t)
    ensures Elements(s) == Elements(t)
  {
    forall x: T
      ensures x in s <==> x in t
    {
      assert x in multiset(s) <==> x in s;
      assert x in multiset(t) <==> x in t;
    }
  }
}
