/**
 * The order Python's `sorted` puts path strings in: lexicographic comparison
 * of code points, a proper prefix first. Used to sort each artifact list.
 */
module PathOrder {

  /** `a <= b` on Python strings. */
  predicate LessEq(a: string, b: string)
    decreases |a|
  {
    if a == [] then true
    else if b == [] then false
    else if a[0] != b[0] then a[0] < b[0]
    else LessEq(a[1..], b[1..])
  }

  lemma {:induction false} LessEqReflexive(a: string)
    ensures LessEq(a, a)
    decreases |a|
  {
    if a != [] { LessEqReflexive(a[1..]); }
  }

  lemma {:induction false} LessEqTotal(a: string, b: string)
    ensures LessEq(a, b) || LessEq(b, a)
    decreases |a|
  {
    if a != [] && b != [] && a[0] == b[0] { LessEqTotal(a[1..], b[1..]); }
  }

  lemma {:induction false} LessEqAntisymmetric(a: string, b: string)
    requires LessEq(a, b) && LessEq(b, a)
    ensures a == b
    decreases |a|
  {
    if a != [] {
      LessEqAntisymmetric(a[1..], b[1..]);
      assert a == [a[0]] + a[1..] && b == [b[0]] + b[1..];
    }
  }

  lemma {:induction false} LessEqTransitive(a: string, b: string, c: string)
    requires LessEq(a, b) && LessEq(b, c)
    ensures LessEq(a, c)
    decreases |a|
  {
    if a != [] && a[0] == b[0] && b[0] == c[0] {
      LessEqTransitive(a[1..], b[1..], c[1..]);
    }
  }

  /** Every earlier element is `<=` every later one. */
  ghost predicate Sorted(s: seq<string>) {
    forall i, j :: 0 <= i < j < |s| ==> LessEq(s[i], s[j])
  }

  /** In a sorted list, `x` is `<=` everything from the first element not `<=` it onwards. */
  lemma BelowRest(s: seq<string>, k: int, x: string)
    requires Sorted(s) && 0 <= k < |s| && !LessEq(s[k], x)
    ensures forall j :: k <= j < |s| ==> LessEq(x, s[j])
  {
    LessEqTotal(s[k], x);
    forall j | k <= j < |s| ensures LessEq(x, s[j]) {
      if j > k { LessEqTransitive(x, s[k], s[j]); }
    }
  }

  /** Placing `x` between the elements `<=` it and the rest keeps a list sorted. */
  lemma InsertedSorted(s: seq<string>, k: int, x: string)
    requires Sorted(s) && 0 <= k <= |s|
    requires forall i :: 0 <= i < k ==> LessEq(s[i], x)
    requires forall j :: k <= j < |s| ==> LessEq(x, s[j])
    ensures Sorted(s[..k] + [x] + s[k..])
  {
    var r := s[..k] + [x] + s[k..];
    forall i, j | 0 <= i < j < |r| ensures LessEq(r[i], r[j]) {
      if j < k {
        assert r[i] == s[i] && r[j] == s[j];
      } else if i < k && j == k {
        assert r[i] == s[i] && r[j] == x;
      } else if i < k && j > k {
        assert r[i] == s[i] && r[j] == s[j - 1];
      } else if i == k {
        assert r[i] == x && r[j] == s[j - 1];
      } else {
        assert r[i] == s[i - 1] && r[j] == s[j - 1];
      }
    }
  }

  /** Inserts `x` into a sorted list after every element `<= x`. */
  method Insert(s: seq<string>, x: string) returns (r: seq<string>)
    requires Sorted(s)
    ensures Sorted(r)
    ensures multiset(r) == multiset(s) + multiset{x}
  {
    var k := 0;
    while k < |s| && LessEq(s[k], x)
      invariant 0 <= k <= |s|
      invariant forall i :: 0 <= i < k ==> LessEq(s[i], x)
    {
      k := k + 1;
    }
    if k < |s| {
      BelowRest(s, k, x);
    }
    InsertedSorted(s, k, x);
    r := s[..k] + [x] + s[k..];
    assert s == s[..k] + s[k..];
  }

  /** Python's `sorted` on a list of path strings (insertion sort). */
  method SortPaths(paths: seq<string>) returns (r: seq<string>)
    ensures Sorted(r)
    ensures multiset(r) == multiset(paths)
  {
    r := [];
    for i := 0 to |paths|
      invariant Sorted(r)
      invariant multiset(r) == multiset(paths[..i])
    {
      r := Insert(r, paths[i]);
      assert paths[..i + 1] == paths[..i] + [paths[i]];
    }
    assert paths[..|paths|] == paths;
  }

  /** Two sorted permutations of one non-empty list start with the same element. */
  lemma SortedHeadsEqual(s: seq<string>, t: seq<string>)
    requires Sorted(s) && Sorted(t) && multiset(s) == multiset(t) && s != []
    ensures t != [] && s[0] == t[0]
  {
    assert s[0] in multiset(s);
    assert t != [] by { assert |t| == |multiset(t)| == |s|; }
    assert t[0] in multiset(t);
    var i :| 0 <= i < |t| && t[i] == s[0];
    var j :| 0 <= j < |s| && s[j] == t[0];
    if i > 0 { assert LessEq(t[0], t[i]); } else { LessEqReflexive(t[0]); }
    if j > 0 { assert LessEq(s[0], s[j]); } else { LessEqReflexive(s[0]); }
    LessEqAntisymmetric(s[0], t[0]);
  }

  /** Removing equal heads from two permutations of each other leaves permutations. */
  lemma TailsPermutation(s: seq<string>, t: seq<string>)
    requires s != [] && t != [] && s[0] == t[0] && multiset(s) == multiset(t)
    ensures multiset(s[1..]) == multiset(t[1..])
  {
    assert s == [s[0]] + s[1..] && t == [t[0]] + t[1..];
    assert multiset(s) == multiset{s[0]} + multiset(s[1..]);
    assert multiset(t) == multiset{t[0]} + multiset(t[1..]);
    assert multiset(s[1..]) == multiset(s) - multiset{s[0]};
    assert multiset(t[1..]) == multiset(t) - multiset{t[0]};
  }

  /** Sorting is deterministic: a sorted permutation of a list is unique. */
  lemma {:induction false} SortedPermutationUnique(s: seq<string>, t: seq<string>)
    requires Sorted(s) && Sorted(t) && multiset(s) == multiset(t)
    ensures s == t
    decreases |s|
  {
    if s == [] {
      assert |t| == |multiset(t)| == 0;
    } else {
      SortedHeadsEqual(s, t);
      TailsPermutation(s, t);
      SortedPermutationUnique(s[1..], t[1..]);
      assert s == [s[0]] + s[1..] && t == [t[0]] + t[1..];
    }
  }
}
