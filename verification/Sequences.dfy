/** Laws of sequences and sets that several modules use. */
module Sequences {

  ghost predicate Distinct<T>(s: seq<T>) {
    forall i, j :: 0 <= i < j < |s| ==> s[i] != s[j]
  }

  function Elements<T>(s: seq<T>): set<T> { set x | x in s }

  /** Counting distinct elements tells whether any repeats. */
  lemma {:induction false} DistinctByCount<T>(s: seq<T>)
    ensures |Elements(s)| <= |s|
    ensures |Elements(s)| == |s| <==> Distinct(s)
  {
    if s != [] {
      var last := |s| - 1;
      var init := s[..last];
      DistinctByCount(init);
      assert s == init + [s[last]];
      assert Elements(s) == Elements(init) + {s[last]};
      if s[last] in init {
        assert Elements(s) == Elements(init);
        var k :| 0 <= k < last && init[k] == s[last];
        assert s[k] == s[last];
      } else {
        assert forall k :: 0 <= k < last ==> s[k] == init[k];
      }
    }
  }

  lemma DistinctTogether<T>(s: seq<T>, t: seq<T>)
    requires Distinct(s) && Distinct(t) && forall x :: x in s ==> x !in t
    ensures Distinct(s + t)
  {
    forall i, j | 0 <= i < j < |s + t|
      ensures (s + t)[i] != (s + t)[j]
    {
      assert i < |s| ==> (s + t)[i] in s;
      assert j >= |s| ==> (s + t)[j] in t;
    }
  }

  lemma {:induction false} Fewer<T>(some: set<T>, more: set<T>)
    requires some <= more
    ensures |some| <= |more|
    decreases some
  {
    if some != {} {
      var x :| x in some;
      Fewer(some - {x}, more - {x});
    }
  }

  lemma SamePresence<T>(a: seq<T>, b: seq<T>)
    requires multiset(a) == multiset(b)
    ensures |a| == |b| && forall x :: x in a <==> x in b
  {
    assert |multiset(a)| == |a| && |multiset(b)| == |b|;
    assert forall x :: x in a <==> x in multiset(a);
    assert forall x :: x in b <==> x in multiset(b);
  }

  lemma LastOfMultiset<T>(s: seq<T>)
    requires s != []
    ensures multiset(s) == multiset(s[..|s| - 1]) + multiset{s[|s| - 1]}
  {
    assert s == s[..|s| - 1] + [s[|s| - 1]];
  }

  /** A reordering of distinct elements is distinct. */
  lemma StillDistinct<T>(s: seq<T>, t: seq<T>)
    requires Distinct(s) && multiset(t) == multiset(s)
    ensures Distinct(t)
  {
    SamePresence(s, t);
    DistinctByCount(s);
    DistinctByCount(t);
    assert Elements(s) == Elements(t);
  }
}
