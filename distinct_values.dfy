/** Distinct values of an integer sequence, kept in the order of their first appearance. */
module DistinctValues {

  predicate NoDuplicates(s: seq<int>) {
    forall i, j :: 0 <= i < j < |s| ==> s[i] != s[j]
  }

  /** The position where x first occurs in s. */
  function FirstIndex(s: seq<int>, x: int): (i: nat)
    requires x in s
    ensures i < |s| && s[i] == x && x !in s[..i]
  {
    if s[0] == x then 0
    else
      assert s == [s[0]] + s[1..];
      1 + FirstIndex(s[1..], x)
  }

  /** The values of s without repetitions, each at the place it first appears. */
  function Distinct(s: seq<int>): (d: seq<int>)
    ensures |d| <= |s|
    ensures d == [] <==> s == []
  {
    if s == [] then []
    else
      var d := Distinct(s[..|s| - 1]);
      if s[|s| - 1] in d then d else d + [s[|s| - 1]]
  }

  /** s with every occurrence of v removed, the rest kept in order. */
  function Without(s: seq<int>, v: int): (r: seq<int>)
    ensures |r| <= |s|
  {
    if s == [] then [] else (if s[0] == v then [] else [s[0]]) + Without(s[1..], v)
  }

  /** Distinct keeps exactly the values of s, and none of them twice. */
  lemma {:induction false} DistinctValuesOf(s: seq<int>)
    ensures forall x :: x in Distinct(s) <==> x in s
    ensures NoDuplicates(Distinct(s))
  {
    if s != [] {
      var init, last := s[..|s| - 1], s[|s| - 1];
      assert s == init + [last];
      DistinctValuesOf(init);
    }
  }

  /** Without drops v and keeps every other value. */
  lemma {:induction false} WithoutValues(s: seq<int>, v: int)
    ensures forall x :: x in Without(s, v) <==> x in s && x != v
  {
    if s != [] {
      assert s == [s[0]] + s[1..];
      WithoutValues(s[1..], v);
    }
  }

  lemma {:induction false} FirstIndexOfPrefix(a: seq<int>, b: seq<int>, x: int)
    requires x in a
    ensures FirstIndex(a + b, x) == FirstIndex(a, x)
  {
    if a[0] != x {
      assert (a + b)[1..] == a[1..] + b;
      assert a == [a[0]] + a[1..];
      FirstIndexOfPrefix(a[1..], b, x);
    }
  }

  /** Distinct lists values in strictly increasing order of first appearance. */
  lemma {:induction false} DistinctFirstAppearance(s: seq<int>)
    ensures forall x :: x in Distinct(s) ==> x in s
    ensures forall i, j :: 0 <= i < j < |Distinct(s)| ==>
      FirstIndex(s, Distinct(s)[i]) < FirstIndex(s, Distinct(s)[j])
  {
    DistinctValuesOf(s);
    if s != [] {
      var init, last := s[..|s| - 1], s[|s| - 1];
      assert s == init + [last];
      DistinctFirstAppearance(init);
      DistinctValuesOf(init);
      var d := Distinct(init);
      forall i, j | 0 <= i < j < |Distinct(s)|
        ensures FirstIndex(s, Distinct(s)[i]) < FirstIndex(s, Distinct(s)[j])
      {
        FirstIndexOfPrefix(init, [last], d[i]);
        if j < |d| {
          FirstIndexOfPrefix(init, [last], d[j]);
        } else {
          // the new value occurs first at the last position
          assert forall k :: 0 <= k < |init| ==> s[k] != last;
        }
      }
    }
  }

  lemma {:induction false} NoDuplicatesCard(d: seq<int>)
    requires NoDuplicates(d)
    ensures |set x | x in d| == |d|
  {
    if d != [] {
      var init, last := d[..|d| - 1], d[|d| - 1];
      assert d == init + [last];
      NoDuplicatesCard(init);
      assert last !in init by {
        assert forall k :: 0 <= k < |init| ==> init[k] == d[k] != d[|d| - 1];
      }
      assert (set x | x in d) == (set x | x in init) + {last};
    }
  }

  /** The number of distinct values is the number of values in the set of s. */
  lemma DistinctCount(s: seq<int>)
    ensures |Distinct(s)| == |set x | x in s|
  {
    DistinctValuesOf(s);
    NoDuplicatesCard(Distinct(s));
    assert (set x | x in Distinct(s)) == (set x | x in s);
  }

  /** Appending values that occur nowhere before, each once, appends them unchanged. */
  lemma {:induction false} DistinctOfFresh(a: seq<int>, b: seq<int>)
    requires NoDuplicates(b)
    requires forall x :: x in b ==> x !in a
    ensures Distinct(a + b) == Distinct(a) + b
  {
    if b == [] {
      assert a + b == a;
    } else {
      var init, last := b[..|b| - 1], b[|b| - 1];
      assert b == init + [last];
      assert a + b == (a + init) + [last];
      DistinctOfFresh(a, init);
      DistinctValuesOf(a + init);
      assert last !in a + init by {
        assert last !in a;
        assert forall k :: 0 <= k < |init| ==> init[k] == b[k] != b[|b| - 1];
      }
    }
  }

  /** A sequence holding one value only, repeated, has that value as its only distinct one. */
  lemma {:induction false} DistinctOfConstant(a: seq<int>, v: int)
    requires forall x :: x in a ==> x == v
    ensures Distinct(a) == if a == [] then [] else [v]
  {
    if a != [] {
      var init := a[..|a| - 1];
      assert a == init + [a[|a| - 1]];
      assert forall x :: x in init ==> x in a;
      assert a[|a| - 1] in a;
      DistinctOfConstant(init, v);
      assert a[|a| - 1] == v;
      if init != [] { assert v in Distinct(init); }
    }
  }

  lemma {:induction false} WithoutAbsent(s: seq<int>, v: int)
    requires v !in s
    ensures Without(s, v) == s
  {
    if s != [] {
      assert s == [s[0]] + s[1..];
      WithoutAbsent(s[1..], v);
    }
  }

  /** Removing a value from a sequence without repetitions removes at most one element. */
  lemma {:induction false} WithoutOfNoDuplicates(s: seq<int>, v: int)
    requires NoDuplicates(s)
    ensures NoDuplicates(Without(s, v))
    ensures |Without(s, v)| == |s| - (if v in s then 1 else 0)
  {
    if s != [] {
      assert s == [s[0]] + s[1..];
      assert s[0] !in s[1..] by {
        assert forall k :: 0 <= k < |s[1..]| ==> s[1..][k] == s[k + 1] != s[0];
      }
      WithoutOfNoDuplicates(s[1..], v);
      WithoutValues(s[1..], v);
      var rest := Without(s[1..], v);
      if s[0] == v {
        WithoutAbsent(s[1..], v);
      } else {
        assert Without(s, v) == [s[0]] + rest;
        assert s[0] !in rest;
      }
    }
  }

  /** The position in s of the i-th value that Without keeps. */
  function SurvivorPosition(s: seq<int>, v: int, i: nat): (p: nat)
    requires i < |Without(s, v)|
    ensures p < |s| && s[p] == Without(s, v)[i]
  {
    var rest := Without(s[1..], v);
    if s[0] == v then
      assert Without(s, v) == rest;
      1 + SurvivorPosition(s[1..], v, i)
    else if i == 0 then 0
    else
      assert Without(s, v) == [s[0]] + rest;
      1 + SurvivorPosition(s[1..], v, i - 1)
  }

  /** Without keeps the survivors in their order in s. */
  lemma {:induction false} SurvivorPositionsIncrease(s: seq<int>, v: int, i: nat, j: nat)
    requires i < j < |Without(s, v)|
    ensures SurvivorPosition(s, v, i) < SurvivorPosition(s, v, j)
  {
    if s[0] == v {
      assert Without(s, v) == Without(s[1..], v);
      SurvivorPositionsIncrease(s[1..], v, i, j);
    } else if i > 0 {
      assert Without(s, v) == [s[0]] + Without(s[1..], v);
      SurvivorPositionsIncrease(s[1..], v, i - 1, j - 1);
    }
  }

  /** In a repetition-free s, each value first occurs at its only position. */
  lemma FirstIndexOfNoDuplicates(s: seq<int>, p: nat)
    requires NoDuplicates(s) && p < |s|
    ensures FirstIndex(s, s[p]) == p
  {
    var f := FirstIndex(s, s[p]);
    assert s[f] == s[p];
  }

  /** Two survivors of Without, taken in order, first occur in that order in a repetition-free s. */
  lemma WithoutPairOrder(s: seq<int>, v: int, i: nat, j: nat)
    requires NoDuplicates(s)
    requires i < j < |Without(s, v)|
    ensures Without(s, v)[i] in s && Without(s, v)[j] in s
    ensures FirstIndex(s, Without(s, v)[i]) < FirstIndex(s, Without(s, v)[j])
  {
    var p, q := SurvivorPosition(s, v, i), SurvivorPosition(s, v, j);
    SurvivorPositionsIncrease(s, v, i, j);
    FirstIndexOfNoDuplicates(s, p);
    FirstIndexOfNoDuplicates(s, q);
  }
}
