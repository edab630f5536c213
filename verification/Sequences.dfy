/** Facts about sequences that several modules use. */
module Sequences {
  /** What is inserted somewhere is added. */
  lemma InsertedAll<T>(out: seq<T>, p: nat, x: T)
    requires p <= |out|
    ensures multiset(out[..p] + [x] + out[p..]) == multiset(out) + multiset{x}
  {
    assert out == out[..p] + out[p..];
  }

  /** A set whose elements are all listed is no larger than the list. */
  lemma {:induction false} ListedSize<T>(xs: seq<T>, s: set<T>)
    requires forall x :: x in s ==> x in xs
    ensures |s| <= |xs|
  {
    if xs == [] {
      assert s == {} by {
        forall x | x in s
          ensures x in xs
        {
        }
      }
    } else {
      var init, last := xs[..|xs| - 1], xs[|xs| - 1];
      assert xs == init + [last];
      ListedSize(init, s - {last});
      assert s <= (s - {last}) + {last};
    }
  }

  /** A list without repetitions is as long as the set of its elements is large. */
  lemma {:induction false} DistinctSize<T>(xs: seq<T>, s: set<T>)
    requires forall i, j :: 0 <= i < j < |xs| ==> xs[i] != xs[j]
    requires forall x :: x in xs <==> x in s
    ensures |xs| == |s|
  {
    if xs != [] {
      var init, last := xs[..|xs| - 1], xs[|xs| - 1];
      assert xs == init + [last];
      assert last !in init;
      DistinctSize(init, s - {last});
    } else {
      assert s == {};
    }
  }

  /** A list without repetitions of as many elements of a set as it has lists all of them. */
  lemma DistinctCovers<T>(xs: seq<T>, s: set<T>)
    requires forall i, j :: 0 <= i < j < |xs| ==> xs[i] != xs[j]
    requires |xs| == |s| && forall x :: x in xs ==> x in s
    ensures forall x :: x in s ==> x in xs
  {
    var listed := set x | x in xs;
    DistinctSize(xs, listed);
    assert |s - listed| == 0;
  }
}
