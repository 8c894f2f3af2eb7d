/**
 * The case-insensitive name filter shared by the session list (Home.jsx) and
 * the client picker (StartSessionModal.jsx):
 * `xs.filter(x => name(x).toLowerCase().includes(term.toLowerCase()))`.
 */
module Search {
  import opened Text

  /** `name.toLowerCase().includes(term.toLowerCase())`. */
  predicate Matches(name: string, term: string) {
    Contains(ToLower(name), ToLower(term))
  }

  /** The elements of `xs` whose name matches `term`, in their original order. */
  function FilterByName<T(==)>(xs: seq<T>, nameOf: T -> string, term: string): (r: seq<T>)
    ensures |r| <= |xs|
    ensures forall x :: x in r ==> x in xs && Matches(nameOf(x), term)
    ensures forall x :: x in xs && Matches(nameOf(x), term) ==> x in r
  {
    if xs == [] then []
    else (if Matches(nameOf(xs[0]), term) then [xs[0]] else []) + FilterByName(xs[1..], nameOf, term)
  }

  /** `a` is `b` with some elements left out, the rest in the same order. */
  predicate IsSubsequence<T(==)>(a: seq<T>, b: seq<T>)
    decreases |b|
  {
    a == [] || (b != [] && if a[0] == b[0] then IsSubsequence(a[1..], b[1..]) else IsSubsequence(a, b[1..]))
  }

  /** A subsequence of `b` is one of `b` with an element put in front. */
  lemma {:induction false} SubsequenceOfTail<T>(a: seq<T>, b: seq<T>, x: T)
    requires IsSubsequence(a, b)
    ensures IsSubsequence(a, [x] + b)
    decreases |b|, 1
  {
    var xb := [x] + b;
    assert xb[1..] == b;
    if a != [] && a[0] == x {
      // matching `x` greedily must leave a[1..] inside b
      SubsequenceDrop(a, b);
    }
  }

  /** Dropping the first element of a subsequence leaves a subsequence. */
  lemma {:induction false} SubsequenceDrop<T>(a: seq<T>, b: seq<T>)
    requires a != [] && IsSubsequence(a, b)
    ensures IsSubsequence(a[1..], b)
    decreases |b|, 0
  {
    if a[0] == b[0] {
      if a[1..] != [] {
        SubsequenceOfTail(a[1..], b[1..], b[0]);
        assert [b[0]] + b[1..] == b;
      }
    } else {
      SubsequenceDrop(a, b[1..]);
      if a[1..] != [] {
        SubsequenceOfTail(a[1..], b[1..], b[0]);
        assert [b[0]] + b[1..] == b;
      }
    }
  }

  /** The filter keeps the order of what it keeps. */
  lemma {:induction false} FilterIsSubsequence<T>(xs: seq<T>, nameOf: T -> string, term: string)
    ensures IsSubsequence(FilterByName(xs, nameOf, term), xs)
  {
    if xs != [] {
      var rest := FilterByName(xs[1..], nameOf, term);
      FilterIsSubsequence(xs[1..], nameOf, term);
      if Matches(nameOf(xs[0]), term) {
        assert ([xs[0]] + rest)[1..] == rest;
      } else {
        assert [] + rest == rest;
        SubsequenceOfTail(rest, xs[1..], xs[0]);
        assert [xs[0]] + xs[1..] == xs;
      }
    }
  }

  /** Filtering a concatenation filters each part. */
  lemma {:induction false} FilterAppend<T>(xs: seq<T>, ys: seq<T>, nameOf: T -> string, term: string)
    ensures FilterByName(xs + ys, nameOf, term) == FilterByName(xs, nameOf, term) + FilterByName(ys, nameOf, term)
  {
    if xs == [] {
      assert xs + ys == ys;
    } else {
      assert (xs + ys)[0] == xs[0];
      assert (xs + ys)[1..] == xs[1..] + ys;
      FilterAppend(xs[1..], ys, nameOf, term);
    }
  }

  /** An empty search term keeps every element. */
  lemma {:induction false} FilterEmptyTerm<T>(xs: seq<T>, nameOf: T -> string)
    ensures FilterByName(xs, nameOf, "") == xs
  {
    if xs != [] {
      ContainsEmpty(ToLower(nameOf(xs[0])));
      FilterEmptyTerm(xs[1..], nameOf);
      assert [xs[0]] + xs[1..] == xs;
    }
  }

  /** The match ignores the case of ASCII letters on both sides. */
  lemma MatchesIgnoresCase(name: string, term: string)
    ensures Matches(ToLower(name), term) == Matches(name, term)
    ensures Matches(name, ToLower(term)) == Matches(name, term)
  {
    ToLowerIdempotent(name);
    ToLowerIdempotent(term);
  }
}
