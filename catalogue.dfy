/**
 * The building blocks shared by every catalogue page: `Array.prototype.filter`,
 * the case-insensitive text search (`a.toLowerCase().includes(q.toLowerCase())`
 * over several fields, joined with `||`), and the drop-down selectors with a
 * wildcard value ("all" or "All") that matches everything.
 */
module Catalogue {

  import opened Text

  // ---- filter ----

  /** `xs.filter(p)`: the elements satisfying `p`, in their original order. */
  function Filter<T(!new)>(p: T -> bool, xs: seq<T>): (r: seq<T>)
    ensures |r| <= |xs|
    ensures forall i :: 0 <= i < |r| ==> p(r[i])
    ensures forall x :: x in r <==> x in xs && p(x)
    ensures forall x :: multiset(r)[x] == if p(x) then multiset(xs)[x] else 0
  {
    if xs == [] then []
    else
      var rest := Filter(p, xs[1..]);
      assert xs == [xs[0]] + xs[1..];
      if p(xs[0]) then [xs[0]] + rest else rest
  }

  /** `a` is `b` with some elements removed and the rest left in order. */
  predicate IsSubsequence<T(==)>(a: seq<T>, b: seq<T>)
    decreases |b|
  {
    if b == [] then a == []
    else (a != [] && a[0] == b[0] && IsSubsequence(a[1..], b[1..])) || IsSubsequence(a, b[1..])
  }

  /** A filter result is an order-preserving sub-list of its input. */
  lemma {:induction false} FilterIsSubsequence<T(!new)>(p: T -> bool, xs: seq<T>)
    ensures IsSubsequence(Filter(p, xs), xs)
  {
    if xs != [] {
      FilterIsSubsequence(p, xs[1..]);
      var r := Filter(p, xs);
      if p(xs[0]) {
        assert r[0] == xs[0] && r[1..] == Filter(p, xs[1..]);
      }
    }
  }

  /** `xs.slice(0, n)`: the first `n` elements, or all of them when there are fewer. */
  function Take<T>(xs: seq<T>, n: nat): (r: seq<T>)
    ensures |r| == if |xs| <= n then |xs| else n
    ensures r == xs[..|r|]
  {
    if |xs| <= n then xs else xs[..n]
  }

  /** The empty list is a sub-list of every list. */
  lemma {:induction false} EmptyIsSubsequence<T>(b: seq<T>)
    ensures IsSubsequence([], b)
    decreases |b|
  {
    if b != [] {
      EmptyIsSubsequence(b[1..]);
    }
  }

  /** Every prefix of a sub-list is again a sub-list. */
  lemma {:induction false} PrefixIsSubsequence<T>(a: seq<T>, b: seq<T>, k: nat)
    requires IsSubsequence(a, b) && k <= |a|
    ensures IsSubsequence(a[..k], b)
    decreases |b|
  {
    if b == [] {
    } else if a != [] && a[0] == b[0] && IsSubsequence(a[1..], b[1..]) {
      if k == 0 {
        EmptyIsSubsequence(b);
      } else {
        PrefixIsSubsequence(a[1..], b[1..], k - 1);
        assert a[..k][1..] == a[1..][..k - 1];
      }
    } else {
      PrefixIsSubsequence(a, b[1..], k);
    }
  }

  /** Filtering with a predicate every element meets returns the list unchanged. */
  lemma {:induction false} FilterKeepsAll<T(!new)>(p: T -> bool, xs: seq<T>)
    requires forall i :: 0 <= i < |xs| ==> p(xs[i])
    ensures Filter(p, xs) == xs
  {
    if xs != [] {
      FilterKeepsAll(p, xs[1..]);
      assert xs == [xs[0]] + xs[1..];
    }
  }

  /** The result is empty exactly when nothing matches, the condition for the "no results" panels. */
  lemma FilterEmptyIff<T(!new)>(p: T -> bool, xs: seq<T>)
    ensures Filter(p, xs) == [] <==> forall i :: 0 <= i < |xs| ==> !p(xs[i])
  {
    if Filter(p, xs) == [] {
      forall i | 0 <= i < |xs| ensures !p(xs[i]) {
        assert xs[i] in xs;
      }
    }
  }

  /** Two predicates that agree on every element filter alike. */
  lemma {:induction false} FilterCongruent<T(!new)>(p: T -> bool, q: T -> bool, xs: seq<T>)
    requires forall i :: 0 <= i < |xs| ==> p(xs[i]) == q(xs[i])
    ensures Filter(p, xs) == Filter(q, xs)
  {
    if xs != [] {
      FilterCongruent(p, q, xs[1..]);
    }
  }

  // ---- text search ----

  /** `text.toLowerCase().includes(query.toLowerCase())`. */
  predicate FieldMatches(text: string, query: string) {
    Includes(Lower(text), Lower(query))
  }

  /** Some field matches the query: the `||` chain over a page's searchable fields. */
  predicate AnyFieldMatches(texts: seq<string>, query: string)
    decreases |texts|
  {
    texts != [] && (FieldMatches(texts[0], query) || AnyFieldMatches(texts[1..], query))
  }

  /** The `||` chain is "some field matches". */
  lemma {:induction false} AnyFieldMatchesIff(texts: seq<string>, query: string)
    ensures AnyFieldMatches(texts, query) <==> exists i :: 0 <= i < |texts| && FieldMatches(texts[i], query)
    decreases |texts|
  {
    if texts != [] {
      AnyFieldMatchesIff(texts[1..], query);
      if exists i :: 0 <= i < |texts| && FieldMatches(texts[i], query) {
        var i :| 0 <= i < |texts| && FieldMatches(texts[i], query);
        if i > 0 {
          assert texts[1..][i - 1] == texts[i];
        }
      }
    }
  }

  /** The empty query matches any item with at least one searchable field. */
  lemma EmptyQueryMatches(texts: seq<string>)
    requires texts != []
    ensures AnyFieldMatches(texts, "")
  {
    IncludesEmpty(Lower(texts[0]));
  }

  /** Every field contains itself, whatever the case of the query. */
  lemma FieldMatchesItself(text: string)
    ensures FieldMatches(text, text)
  {
    IncludesSlice(Lower(text), 0, |text|);
    assert Lower(text)[0..|text|] == Lower(text);
  }

  /** Folding the query first changes nothing: the search ignores the query's case. */
  lemma SearchIgnoresQueryCase(texts: seq<string>, query: string)
    ensures AnyFieldMatches(texts, Lower(query)) == AnyFieldMatches(texts, query)
  {
    LowerIdempotent(query);
  }

  // ---- selectors ----

  /** A drop-down selection: the wildcard value, or an exact field value. */
  predicate Selects(selected: string, wildcard: string, value: string) {
    selected == wildcard || value == selected
  }
}
