/**
 * `Array.prototype.filter` and what it means to select from a list: the
 * result keeps the original order and holds exactly the elements that pass.
 */
module Seqs {

  /** `s.filter(p)`. */
  function Filter<T>(s: seq<T>, p: T -> bool): (r: seq<T>)
    ensures |r| <= |s|
    ensures forall x :: x in r ==> x in s && p(x)
  {
    if s == [] then []
    else (if p(s[0]) then [s[0]] else []) + Filter(s[1..], p)
  }

  /** `a` is `b` with some elements dropped and the rest in their original order. */
  predicate IsSubseq<T(==)>(a: seq<T>, b: seq<T>)
    decreases |b|
  {
    a == [] || (b != [] && ((a[0] == b[0] && IsSubseq(a[1..], b[1..])) || IsSubseq(a, b[1..])))
  }

  /**
   * `r` is the order-preserving selection of the elements of `s` that pass
   * `p`: a subsequence of `s`, all of whose elements pass, holding every
   * passing element of `s` as many times as `s` does.
   */
  ghost predicate Selects<T(!new)>(r: seq<T>, s: seq<T>, p: T -> bool) {
    && IsSubseq(r, s)
    && (forall x :: x in r ==> p(x))
    && (forall x :: p(x) ==> multiset(r)[x] == multiset(s)[x])
  }

  /** Filtering selects exactly the passing elements, in order. */
  lemma {:induction false} FilterSelects<T(!new)>(s: seq<T>, p: T -> bool)
    ensures Selects(Filter(s, p), s, p)
    ensures forall x :: !p(x) ==> multiset(Filter(s, p))[x] == 0
  {
    if s != [] {
      FilterSelects(s[1..], p);
      var r := Filter(s, p);
      var t := Filter(s[1..], p);
      assert s == [s[0]] + s[1..];
      if p(s[0]) {
        assert r == [s[0]] + t && r[1..] == t;
      } else {
        assert r == t;
        IsSubseqOfTail(t, s);
      }
    }
  }

  /** Dropping the head of the longer list keeps a subsequence. */
  lemma IsSubseqOfTail<T>(a: seq<T>, b: seq<T>)
    requires b != [] && IsSubseq(a, b[1..])
    ensures IsSubseq(a, b)
  {
  }

  /** A filter that every element passes leaves the list as it is. */
  lemma {:induction false} FilterKeepsAll<T>(s: seq<T>, p: T -> bool)
    requires forall x :: x in s ==> p(x)
    ensures Filter(s, p) == s
  {
    if s != [] {
      FilterKeepsAll(s[1..], p);
      assert s == [s[0]] + s[1..];
    }
  }

  /** Filtering distributes over concatenation. */
  lemma {:induction false} FilterAppend<T>(a: seq<T>, b: seq<T>, p: T -> bool)
    ensures Filter(a + b, p) == Filter(a, p) + Filter(b, p)
  {
    if a == [] {
      assert a + b == b;
    } else {
      var c := a + b;
      assert c[0] == a[0] && c[1..] == a[1..] + b;
      FilterAppend(a[1..], b, p);
    }
  }

  /**
   * Moving `x` past `y` leaves the filtered sequence alone when at most one
   * of the two passes.
   */
  lemma FilterPastNonTie<T>(x: T, y: T, u: seq<T>, ins: seq<T>, p: T -> bool)
    requires Filter(ins, p) == Filter([x] + u, p)
    requires !(p(x) && p(y))
    ensures Filter([y] + ins, p) == Filter([x] + ([y] + u), p)
  {
    FilterAppend([y], ins, p);
    FilterAppend([x], u, p);
    FilterAppend([x], [y] + u, p);
    FilterAppend([y], u, p);
    if p(x) {
      assert Filter([y], p) == [];
    } else {
      assert Filter([x], p) == [];
    }
  }
}
