/**
 * The JavaScript array operations the version comparison is built from:
 * `filter` (which keeps order and duplicates), dropping `null` results,
 * and the default `sort` of an array of strings.
 */
module Lists {
  import opened Wrappers

  /** `a` is `b` with some elements left out, the rest kept in order. */
  predicate IsSubsequence<T(==)>(a: seq<T>, b: seq<T>)
  {
    a == [] || (b != [] && ((a[0] == b[0] && IsSubsequence(a[1..], b[1..])) || IsSubsequence(a, b[1..])))
  }

  /** A subsequence takes each value at most as often as the sequence holds it. */
  lemma {:induction false} SubsequenceCounts<T>(a: seq<T>, b: seq<T>)
    requires IsSubsequence(a, b)
    ensures multiset(a) <= multiset(b)
    ensures forall x :: x in a ==> x in b
  {
    if a != [] {
      assert b == [b[0]] + b[1..];
      if a[0] == b[0] && IsSubsequence(a[1..], b[1..]) {
        SubsequenceCounts(a[1..], b[1..]);
        assert a == [a[0]] + a[1..];
      } else {
        SubsequenceCounts(a, b[1..]);
      }
    }
  }

  /** `xs.filter(p)`. */
  function Filter<T(!new)>(xs: seq<T>, p: T -> bool): (r: seq<T>)
    ensures forall x :: x in r <==> x in xs && p(x)
    ensures forall x :: multiset(r)[x] == if p(x) then multiset(xs)[x] else 0
    ensures IsSubsequence(r, xs)
    ensures (forall i :: 0 <= i < |xs| ==> p(xs[i])) ==> r == xs
  {
    if xs == [] then []
    else
      assert xs == [xs[0]] + xs[1..];
      if p(xs[0]) then [xs[0]] + Filter(xs[1..], p) else Filter(xs[1..], p)
  }

  /** `results.filter(s => s !== null)`: the present values, in order. */
  function Somes<T(!new)>(xs: seq<Option<T>>): (r: seq<T>)
    ensures forall x :: x in r <==> Some(x) in xs
    ensures forall x :: multiset(r)[x] == multiset(xs)[Some(x)]
    ensures |r| <= |xs|
  {
    if xs == [] then []
    else
      assert xs == [xs[0]] + xs[1..];
      if xs[0].Some? then [xs[0].value] + Somes(xs[1..]) else Somes(xs[1..])
  }

  /**
   * The order of the default `Array.prototype.sort` on strings: character
   * by character, a proper prefix first.
   */
  predicate Below(a: string, b: string)
  {
    if a == [] then true
    else if b == [] then false
    else if a[0] != b[0] then a[0] < b[0]
    else Below(a[1..], b[1..])
  }

  /** Any two strings are ordered one way or the other. */
  lemma {:induction false} BelowTotal(a: string, b: string)
    ensures Below(a, b) || Below(b, a)
  {
    if a != [] && b != [] && a[0] == b[0] {
      BelowTotal(a[1..], b[1..]);
    }
  }

  /** Strings ordered both ways are equal. */
  lemma {:induction false} BelowAntisymmetric(a: string, b: string)
    requires Below(a, b) && Below(b, a)
    ensures a == b
  {
    if a != [] {
      BelowAntisymmetric(a[1..], b[1..]);
      assert a == [a[0]] + a[1..] && b == [b[0]] + b[1..];
    }
  }

  /** The order is transitive. */
  lemma {:induction false} BelowTransitive(a: string, b: string, c: string)
    requires Below(a, b) && Below(b, c)
    ensures Below(a, c)
  {
    if a != [] && a[0] == b[0] && b[0] == c[0] {
      BelowTransitive(a[1..], b[1..], c[1..]);
    }
  }

  /** Each string is at or below the next one. */
  predicate Sorted(s: seq<string>)
  {
    forall i :: 0 < i < |s| ==> Below(s[i - 1], s[i])
  }

  /** Places `x` into a sorted sequence. */
  function Insert(x: string, s: seq<string>): (r: seq<string>)
    requires Sorted(s)
    ensures Sorted(r)
    ensures multiset(r) == multiset(s) + multiset{x}
    ensures r != [] && (r[0] == x || (s != [] && r[0] == s[0]))
  {
    if s == [] then [x]
    else if Below(x, s[0]) then [x] + s
    else
      BelowTotal(x, s[0]);
      assert s == [s[0]] + s[1..];
      [s[0]] + Insert(x, s[1..])
  }

  /** `[...names].sort()`: the names in ascending order, each kept as often as it occurs. */
  function Sort(names: seq<string>): (r: seq<string>)
    ensures Sorted(r)
    ensures multiset(r) == multiset(names)
  {
    if names == [] then []
    else
      assert names == [names[0]] + names[1..];
      Insert(names[0], Sort(names[1..]))
  }

  /** The first element of a sorted sequence is at or below every element. */
  lemma {:induction false} SortedHeadBelowAll(s: seq<string>)
    requires Sorted(s) && s != []
    ensures forall x :: x in s ==> Below(s[0], x)
  {
    if |s| == 1 {
      assert forall x :: x in s ==> x == s[0];
      BelowReflexive(s[0]);
    } else {
      SortedHeadBelowAll(s[1..]);
      forall x | x in s
        ensures Below(s[0], x)
      {
        if x == s[0] {
          BelowReflexive(x);
        } else {
          assert x in s[1..];
          BelowTransitive(s[0], s[1], x);
        }
      }
    }
  }

  /** Every string is at or below itself. */
  lemma {:induction false} BelowReflexive(a: string)
    ensures Below(a, a)
  {
    if a != [] {
      BelowReflexive(a[1..]);
    }
  }

  /** Dropping the first element of a sorted sequence leaves it sorted, and removes one copy of that element. */
  lemma SortedTail(s: seq<string>)
    requires Sorted(s) && s != []
    ensures Sorted(s[1..])
    ensures multiset(s[1..]) == multiset(s) - multiset{s[0]}
  {
    forall i | 0 < i < |s| - 1
      ensures Below(s[1..][i - 1], s[1..][i])
    {
      assert Below(s[i], s[i + 1]);
    }
    assert s == [s[0]] + s[1..];
  }

  /**
   * There is only one sorted arrangement of a collection of names, so the
   * sorted display does not depend on how the sort is carried out.
   */
  lemma {:induction false} SortedArrangementUnique(a: seq<string>, b: seq<string>)
    requires Sorted(a) && Sorted(b) && multiset(a) == multiset(b)
    ensures a == b
  {
    if a != [] {
      SortedSameHead(a, b);
      SortedTail(a);
      SortedTail(b);
      SortedArrangementUnique(a[1..], b[1..]);
      assert a == [a[0]] + a[1..] && b == [b[0]] + b[1..];
    }
  }

  /** Two sorted arrangements of the same names start with the same name. */
  lemma SortedSameHead(a: seq<string>, b: seq<string>)
    requires Sorted(a) && Sorted(b) && multiset(a) == multiset(b) && a != []
    ensures b != [] && a[0] == b[0]
  {
    assert a[0] in multiset(b);
    assert b[0] in multiset(a);
    SortedHeadBelowAll(a);
    SortedHeadBelowAll(b);
    BelowAntisymmetric(a[0], b[0]);
  }
}
