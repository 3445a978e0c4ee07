/** Order-preserving filtering (Array.prototype.filter) and what it keeps. */
module Seqs {

  /** `a` can be obtained from `b` by deleting elements, keeping the order of the rest. */
  predicate IsSubseq<T(==)>(a: seq<T>, b: seq<T>)
    decreases |b|
  {
    a == [] || (b != [] && ((a[0] == b[0] && IsSubseq(a[1..], b[1..])) || IsSubseq(a, b[1..])))
  }

  /** No element occurs twice. */
  predicate Distinct<T(==)>(s: seq<T>)
  {
    forall i, j :: 0 <= i < j < |s| ==> s[i] != s[j]
  }

  /** The elements of `s` that satisfy `p`, in their original order. */
  function Filter<T>(s: seq<T>, p: T -> bool): (r: seq<T>)
    ensures |r| <= |s|
    ensures forall x :: x in r ==> x in s && p(x)
    ensures forall x :: x in s && p(x) ==> x in r
  {
    if s == [] then []
    else if p(s[0]) then [s[0]] + Filter(s[1..], p)
    else Filter(s[1..], p)
  }

  /** How many elements of `s` satisfy `p` (`s.filter(p).length`). */
  function Count<T>(s: seq<T>, p: T -> bool): nat
  {
    |Filter(s, p)|
  }

  /** A filtered list is an order-preserving subsequence of its input. */
  lemma {:induction false} FilterIsSubseq<T>(s: seq<T>, p: T -> bool)
    ensures IsSubseq(Filter(s, p), s)
  {
    if s != [] {
      FilterIsSubseq(s[1..], p);
    }
  }

  /** A predicate that holds everywhere keeps the whole list. */
  lemma {:induction false} FilterAll<T>(s: seq<T>, p: T -> bool)
    requires forall x :: x in s ==> p(x)
    ensures Filter(s, p) == s
  {
    if s != [] {
      assert forall x :: x in s[1..] ==> x in s;
      FilterAll(s[1..], p);
    }
  }

  /** A predicate that holds nowhere keeps nothing. */
  lemma {:induction false} FilterNone<T>(s: seq<T>, p: T -> bool)
    requires forall x :: x in s ==> !p(x)
    ensures Filter(s, p) == []
  {
    if s != [] {
      assert forall x :: x in s[1..] ==> x in s;
      FilterNone(s[1..], p);
    }
  }

  /** Two predicates that agree on the elements of `s` filter it identically. */
  lemma {:induction false} FilterExt<T>(s: seq<T>, p: T -> bool, q: T -> bool)
    requires forall x :: x in s ==> (p(x) <==> q(x))
    ensures Filter(s, p) == Filter(s, q)
  {
    if s != [] {
      assert forall x :: x in s[1..] ==> x in s;
      FilterExt(s[1..], p, q);
    }
  }

  /** Filtering by a stronger predicate keeps a subsequence of what the weaker one keeps. */
  lemma {:induction false} FilterStronger<T>(s: seq<T>, p: T -> bool, q: T -> bool)
    requires forall x :: x in s ==> (q(x) ==> p(x))
    ensures IsSubseq(Filter(s, q), Filter(s, p))
  {
    if s == [] {
    } else {
      assert forall x :: x in s[1..] ==> x in s;
      FilterStronger(s[1..], p, q);
      var a, b := Filter(s[1..], q), Filter(s[1..], p);
      if q(s[0]) {
        assert Filter(s, q) == [s[0]] + a && Filter(s, p) == [s[0]] + b;
        assert ([s[0]] + a)[1..] == a && ([s[0]] + b)[1..] == b;
      } else if p(s[0]) {
        assert Filter(s, p) == [s[0]] + b && ([s[0]] + b)[1..] == b;
      }
    }
  }

  /** `p` and its negation split `s`: the two filtered lists together are as long as `s`. */
  lemma {:induction false} CountComplement<T>(s: seq<T>, p: T -> bool, q: T -> bool)
    requires forall x :: x in s ==> (q(x) <==> !p(x))
    ensures Count(s, p) + Count(s, q) == |s|
  {
    if s != [] {
      assert forall x :: x in s[1..] ==> x in s;
      CountComplement(s[1..], p, q);
    }
  }

  /** Counts of three mutually exclusive predicates add up to at most the length. */
  lemma {:induction false} CountDisjoint3<T>(s: seq<T>, p: T -> bool, q: T -> bool, u: T -> bool)
    requires forall x :: x in s ==> !(p(x) && q(x)) && !(p(x) && u(x)) && !(q(x) && u(x))
    ensures Count(s, p) + Count(s, q) + Count(s, u) <= |s|
    ensures (forall x :: x in s ==> p(x) || q(x) || u(x)) ==> Count(s, p) + Count(s, q) + Count(s, u) == |s|
  {
    if s != [] {
      assert forall x :: x in s[1..] ==> x in s;
      CountDisjoint3(s[1..], p, q, u);
    }
  }
}
