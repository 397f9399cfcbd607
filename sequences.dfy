/**
 * List operations the components use on arrays of plain values: keeping elements in
 * order (`filter`), removing every copy of one value, and the absence of duplicates.
 */
module Sequences {

  /** `sub` is `s` with some elements left out, the rest in their original order. */
  predicate IsSubsequence<T(==)>(sub: seq<T>, s: seq<T>)
    decreases |s|
  {
    if sub == [] then true
    else if s == [] then false
    else (sub[0] == s[0] && IsSubsequence(sub[1..], s[1..])) || IsSubsequence(sub, s[1..])
  }

  predicate NoDup<T(==)>(xs: seq<T>) {
    forall i, j :: 0 <= i < j < |xs| ==> xs[i] != xs[j]
  }

  /** `xs.filter(y => y !== x)` */
  function Without<T(==,!new)>(xs: seq<T>, x: T): (r: seq<T>)
    ensures x !in r
    ensures forall y :: y != x ==> (y in r <==> y in xs)
    ensures IsSubsequence(r, xs)
    ensures |r| <= |xs|
    ensures x !in xs ==> r == xs
    ensures x in xs ==> |r| < |xs|
    decreases |xs|
  {
    if xs == [] then []
    else
      var rest := Without(xs[1..], x);
      if xs[0] == x then rest
      else
        var r := [xs[0]] + rest;
        assert r[1..] == rest;
        assert x !in xs ==> xs == [xs[0]] + xs[1..];
        r
  }

  /** Removing a value keeps the other values free of duplicates. */
  lemma {:induction false} WithoutNoDup<T(!new)>(xs: seq<T>, x: T)
    requires NoDup(xs)
    ensures NoDup(Without(xs, x))
    decreases |xs|
  {
    if xs != [] {
      assert NoDup(xs[1..]) by {
        forall i, j | 0 <= i < j < |xs[1..]| ensures xs[1..][i] != xs[1..][j] {
          assert xs[1..][i] == xs[i + 1] && xs[1..][j] == xs[j + 1];
        }
      }
      WithoutNoDup(xs[1..], x);
      var rest := Without(xs[1..], x);
      if xs[0] != x {
        var r := [xs[0]] + rest;
        assert xs[0] !in xs[1..] by {
          forall j | 0 <= j < |xs[1..]| ensures xs[1..][j] != xs[0] {
            assert xs[1..][j] == xs[j + 1];
          }
        }
        assert xs[0] !in rest;
        forall i, j | 0 <= i < j < |r| ensures r[i] != r[j] {
          if i == 0 {
            assert r[j] == rest[j - 1];
          } else {
            assert r[i] == rest[i - 1] && r[j] == rest[j - 1];
          }
        }
      }
    }
  }

  /** Appending an absent value and removing it again gives the list back. */
  lemma {:induction false} WithoutAppended<T(!new)>(xs: seq<T>, x: T)
    requires x !in xs
    ensures Without(xs + [x], x) == xs
    decreases |xs|
  {
    if xs == [] {
      assert Without([x][1..], x) == [];
    } else {
      WithoutAppended(xs[1..], x);
      assert (xs + [x])[1..] == xs[1..] + [x];
      assert [xs[0]] + xs[1..] == xs;
    }
  }

  /** Appending a value not yet present keeps a list free of duplicates. */
  lemma AppendFreshNoDup<T>(xs: seq<T>, x: T)
    requires NoDup(xs) && x !in xs
    ensures NoDup(xs + [x])
  {
    var r := xs + [x];
    forall i, j | 0 <= i < j < |r| ensures r[i] != r[j] {
      if j == |xs| {
        assert r[i] == xs[i];
      } else {
        assert r[i] == xs[i] && r[j] == xs[j];
      }
    }
  }
}
