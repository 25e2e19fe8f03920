/** The array pipeline operations the TypeScript sources use (filter, map, slice, join). */
module Seqs {

  /** Array.prototype.filter: the elements of `xs` satisfying `p`, in order. */
  function Filter<T>(xs: seq<T>, p: T -> bool): (r: seq<T>)
    ensures |r| <= |xs|
  {
    if xs == [] then [] else (if p(xs[0]) then [xs[0]] else []) + Filter(xs[1..], p)
  }

  /** Array.prototype.map. */
  function Map<T, U>(xs: seq<T>, f: T -> U): (r: seq<U>)
    ensures |r| == |xs|
    ensures forall i :: 0 <= i < |xs| ==> r[i] == f(xs[i])
  {
    if xs == [] then [] else [f(xs[0])] + Map(xs[1..], f)
  }

  /** Array.prototype.slice(0, n). */
  function Take<T>(xs: seq<T>, n: nat): (r: seq<T>)
    ensures |r| <= n && |r| <= |xs|
    ensures |r| == if |xs| <= n then |xs| else n
    ensures r == xs[..|r|]
  {
    if |xs| <= n then xs else xs[..n]
  }

  /** Array.prototype.join(sep). */
  function Join(xs: seq<string>, sep: string): string
  {
    if xs == [] then "" else if |xs| == 1 then xs[0] else xs[0] + sep + Join(xs[1..], sep)
  }

  /** The number of elements of `xs` satisfying `p`. */
  function Count<T>(xs: seq<T>, p: T -> bool): nat
  {
    if xs == [] then 0 else (if p(xs[0]) then 1 else 0) + Count(xs[1..], p)
  }

  // ---------------------------------------------------------------------------
  // Properties of Filter

  lemma {:induction false} FilterLengthIsCount<T>(xs: seq<T>, p: T -> bool)
    ensures |Filter(xs, p)| == Count(xs, p)
  {
    if xs != [] { FilterLengthIsCount(xs[1..], p); }
  }

  /** Everything kept satisfies the predicate and comes from the input, and every
      element of the input that satisfies it is kept. */
  lemma {:induction false} FilterMembership<T>(xs: seq<T>, p: T -> bool, x: T)
    ensures x in Filter(xs, p) <==> x in xs && p(x)
  {
    if xs != [] {
      FilterMembership(xs[1..], p, x);
      assert xs == [xs[0]] + xs[1..];
    }
  }

  lemma {:induction false} FilterAllSatisfy<T>(xs: seq<T>, p: T -> bool)
    ensures forall i :: 0 <= i < |Filter(xs, p)| ==> p(Filter(xs, p)[i])
  {
    if xs != [] {
      FilterAllSatisfy(xs[1..], p);
    }
  }

  lemma {:induction false} FilterAppend<T>(a: seq<T>, b: seq<T>, p: T -> bool)
    ensures Filter(a + b, p) == Filter(a, p) + Filter(b, p)
  {
    if a == [] {
      assert a + b == b;
    } else {
      var ab := a + b;
      assert ab[0] == a[0] && ab[1..] == a[1..] + b;
      FilterAppend(a[1..], b, p);
      calc {
        Filter(ab, p);
        (if p(a[0]) then [a[0]] else []) + Filter(a[1..] + b, p);
        (if p(a[0]) then [a[0]] else []) + (Filter(a[1..], p) + Filter(b, p));
        Filter(a, p) + Filter(b, p);
      }
    }
  }

  /** Order is kept: an element of the input that satisfies `p` lands in the output
      at the position given by the number of satisfying elements before it. */
  lemma FilterPosition<T>(xs: seq<T>, p: T -> bool, i: nat)
    requires i < |xs| && p(xs[i])
    ensures |Filter(xs[..i], p)| < |Filter(xs, p)|
    ensures Filter(xs, p)[|Filter(xs[..i], p)|] == xs[i]
  {
    assert xs == xs[..i] + [xs[i]] + xs[i + 1..];
    FilterAppend(xs[..i] + [xs[i]], xs[i + 1..], p);
    FilterAppend(xs[..i], [xs[i]], p);
    assert Filter([xs[i]], p) == [xs[i]] by {
      assert [xs[i]][1..] == [];
    }
  }

  /** Two kept elements keep their relative order. */
  lemma FilterKeepsOrder<T>(xs: seq<T>, p: T -> bool, a: nat, b: nat)
    requires a < b < |xs| && p(xs[a])
    ensures |Filter(xs[..a], p)| < |Filter(xs[..b], p)|
  {
    var pre := xs[..b];
    assert pre[..a] == xs[..a];
    FilterPosition(pre, p, a);
  }

  /** When every element satisfies the predicate the filter keeps them all. */
  lemma {:induction false} FilterKeepsAll<T>(xs: seq<T>, p: T -> bool)
    requires forall i :: 0 <= i < |xs| ==> p(xs[i])
    ensures Filter(xs, p) == xs
  {
    if xs != [] {
      FilterKeepsAll(xs[1..], p);
    }
  }

  /** The filter keeps nothing iff no element satisfies the predicate. */
  lemma FilterEmptyIff<T>(xs: seq<T>, p: T -> bool)
    ensures Filter(xs, p) == [] <==> forall i :: 0 <= i < |xs| ==> !p(xs[i])
  {
    if Filter(xs, p) == [] {
      forall i | 0 <= i < |xs| ensures !p(xs[i]) {
        if p(xs[i]) { FilterPosition(xs, p, i); }
      }
    } else {
      FilterAllSatisfy(xs, p);
      FilterMembership(xs, p, Filter(xs, p)[0]);
    }
  }

  // ---------------------------------------------------------------------------
  // Properties of Join

  lemma {:induction false} JoinEmptyIff(xs: seq<string>, sep: string)
    requires forall i :: 0 <= i < |xs| ==> xs[i] != ""
    ensures Join(xs, sep) == "" <==> xs == []
  {
    if |xs| > 1 {
      assert |Join(xs, sep)| >= |xs[0]|;
    }
  }
}
