/** Small generic helpers shared by every module: an Option type, the
    order-preserving filter behind JavaScript's `Array.prototype.filter`,
    `slice(0, n)`, and the subsequence relation used to state that a
    filter keeps the original order. */
module Base {

  datatype Option<+T> = None | Some(value: T)

  function Min(a: int, b: int): int { if a <= b then a else b }

  function Max(a: int, b: int): int { if a >= b then a else b }

  /** `xs.filter(p)`: the elements of `xs` that satisfy `p`, in their original order. */
  function Filter<T>(xs: seq<T>, p: T -> bool): (r: seq<T>)
    ensures |r| <= |xs|
    ensures forall i :: 0 <= i < |r| ==> p(r[i])
    ensures forall i :: 0 <= i < |xs| && p(xs[i]) ==> xs[i] in r
    ensures SubsequenceOf(r, xs)
  {
    if xs == [] then []
    else if p(xs[0]) then [xs[0]] + Filter(xs[1..], p)
    else Filter(xs[1..], p)
  }

  /** `xs.slice(0, n)`: at most the first `n` elements. */
  function Take<T>(xs: seq<T>, n: nat): (r: seq<T>)
    ensures |r| == Min(n, |xs|)
    ensures r == xs[..|r|]
  {
    if n <= |xs| then xs[..n] else xs
  }

  /** `xs.slice(from, to)` with both ends clamped to the length; empty when
      the clamped start is past the clamped end. */
  function Slice<T>(xs: seq<T>, from: nat, to: nat): (r: seq<T>)
    ensures |r| == Max(0, Min(to, |xs|) - Min(from, |xs|))
    ensures from <= to && to <= |xs| ==> r == xs[from..to]
  {
    var a, b := Min(from, |xs|), Min(to, |xs|);
    if a <= b then xs[a..b] else []
  }

  /** `xs.slice(from)`: everything after the first `from` elements. */
  function Drop<T>(xs: seq<T>, from: nat): (r: seq<T>)
    ensures |r| == Max(0, |xs| - from)
    ensures from <= |xs| ==> xs == xs[..from] + r
  {
    xs[Min(from, |xs|)..]
  }

  /** `a` can be obtained from `b` by deleting elements (order kept). */
  ghost predicate SubsequenceOf<T>(a: seq<T>, b: seq<T>)
    decreases |b|
  {
    if a == [] then true
    else if b == [] then false
    else if a[0] == b[0] then SubsequenceOf(a[1..], b[1..])
    else SubsequenceOf(a, b[1..])
  }

  /** Every element of a subsequence is an element of the whole. */
  lemma {:induction false} SubsequenceMember<T>(a: seq<T>, b: seq<T>, i: nat)
    requires SubsequenceOf(a, b) && i < |a|
    ensures a[i] in b
    decreases |b|
  {
    if a[0] == b[0] {
      if i > 0 {
        SubsequenceMember(a[1..], b[1..], i - 1);
      }
    } else {
      SubsequenceMember(a, b[1..], i);
    }
  }

  /** Deleting elements from the back of a subsequence keeps it a subsequence:
      a filtered list cut to its first `n` entries still keeps the original order. */
  lemma {:induction false} PrefixOfSubsequence<T>(a: seq<T>, b: seq<T>, n: nat)
    requires SubsequenceOf(a, b)
    requires n <= |a|
    ensures SubsequenceOf(a[..n], b)
    decreases |b|
  {
    if n == 0 || a == [] {
    } else if a[0] == b[0] {
      PrefixOfSubsequence(a[1..], b[1..], n - 1);
      assert a[..n][1..] == a[1..][..n - 1];
    } else {
      PrefixOfSubsequence(a, b[1..], n);
    }
  }

  /** Filtering distributes over concatenation: the kept elements of `a`
      come before the kept elements of `b`. */
  lemma {:induction false} FilterAppend<T>(a: seq<T>, b: seq<T>, p: T -> bool)
    ensures Filter(a + b, p) == Filter(a, p) + Filter(b, p)
  {
    if a == [] {
      assert a + b == b;
    } else {
      assert (a + b)[0] == a[0];
      assert (a + b)[1..] == a[1..] + b;
      FilterAppend(a[1..], b, p);
    }
  }

  /** An element satisfying `p` and one failing it are never both kept/dropped:
      filtering by `p` and by its negation splits the list by length. */
  lemma {:induction false} FilterComplementLength<T>(xs: seq<T>, p: T -> bool, q: T -> bool)
    requires forall i :: 0 <= i < |xs| ==> (q(xs[i]) <==> !p(xs[i]))
    ensures |Filter(xs, p)| + |Filter(xs, q)| == |xs|
  {
    if xs != [] {
      FilterComplementLength(xs[1..], p, q);
    }
  }

  /** Two tests that no element passes together keep at most `|xs|` elements
      between them, and exactly `|xs|` when every element passes one of them. */
  lemma {:induction false} FilterDisjointLength<T>(xs: seq<T>, p: T -> bool, q: T -> bool)
    requires forall i :: 0 <= i < |xs| ==> !(p(xs[i]) && q(xs[i]))
    ensures |Filter(xs, p)| + |Filter(xs, q)| <= |xs|
    ensures |Filter(xs, p)| + |Filter(xs, q)| == |xs| <==> forall i :: 0 <= i < |xs| ==> p(xs[i]) || q(xs[i])
  {
    if xs != [] {
      FilterDisjointLength(xs[1..], p, q);
      assert (forall i :: 0 <= i < |xs| ==> p(xs[i]) || q(xs[i]))
        <==> (p(xs[0]) || q(xs[0])) && (forall i :: 0 <= i < |xs| - 1 ==> p(xs[1..][i]) || q(xs[1..][i]));
    }
  }

  /** A filter keeps every element exactly when every element passes. */
  lemma {:induction false} FilterKeepsAll<T>(xs: seq<T>, p: T -> bool)
    ensures |Filter(xs, p)| == |xs| <==> forall i :: 0 <= i < |xs| ==> p(xs[i])
  {
    if xs != [] {
      FilterKeepsAll(xs[1..], p);
      if p(xs[0]) {
        assert (forall i :: 0 <= i < |xs| ==> p(xs[i])) <==> (forall i :: 0 <= i < |xs| - 1 ==> p(xs[1..][i]));
      }
    }
  }

  /** The positions of `xs` whose element passes `p`. */
  ghost function Passing<T>(xs: seq<T>, p: T -> bool): set<int>
  {
    set i | 0 <= i < |xs| && p(xs[i])
  }

  /** Appending one element adds its position to the passing ones when it passes. */
  lemma PassingSnoc<T>(init: seq<T>, x: T, p: T -> bool)
    ensures Passing(init + [x], p) == Passing(init, p) + (if p(x) then {|init|} else {})
  {
    var xs := init + [x];
    forall i | 0 <= i < |init| ensures xs[i] == init[i] {
    }
  }

  /** A filter keeps one element per passing position. */
  lemma {:induction false} FilterCount<T>(xs: seq<T>, p: T -> bool)
    ensures |Filter(xs, p)| == |Passing(xs, p)|
  {
    if xs != [] {
      var n := |xs| - 1;
      var init, x := xs[..n], xs[n];
      FilterCount(init, p);
      assert xs == init + [x];
      FilterAppend(init, [x], p);
      PassingSnoc(init, x, p);
      assert n !in Passing(init, p);
    }
  }

  /** A filter keeps every copy of a passing element and no copy of a failing one. */
  lemma {:induction false} FilterMultiplicity<T>(xs: seq<T>, p: T -> bool)
    ensures forall x :: multiset(Filter(xs, p))[x] == if p(x) then multiset(xs)[x] else 0
  {
    if xs != [] {
      FilterMultiplicity(xs[1..], p);
      assert xs == [xs[0]] + xs[1..];
    }
  }

  /** `r` is made of the first `n` elements of `xs` that pass `p` (all of them
      when fewer pass), in their order. */
  ghost predicate FirstPassing<T>(r: seq<T>, xs: seq<T>, p: T -> bool, n: nat)
  {
    var all := Filter(xs, p);
    |r| == Min(n, |all|) && r == all[..|r|]
  }

  /** `xs.filter(p).slice(0, n)`: the first `n` elements that pass, in order. */
  function TakeFiltered<T>(xs: seq<T>, p: T -> bool, n: nat): (r: seq<T>)
    ensures |r| <= n && |r| <= |xs|
    ensures forall i :: 0 <= i < |r| ==> r[i] in xs && p(r[i])
    ensures SubsequenceOf(r, xs)
    ensures FirstPassing(r, xs, p, n)
  {
    var all := Filter(xs, p);
    PrefixOfSubsequence(all, xs, Min(n, |all|));
    var r := Take(all, n);
    forall i | 0 <= i < |r| ensures r[i] in xs {
      SubsequenceMember(r, xs, i);
    }
    r
  }

  /** A filter keeps something exactly when some element passes. */
  lemma {:induction false} FilterKeepsSome<T>(xs: seq<T>, p: T -> bool)
    ensures |Filter(xs, p)| > 0 <==> exists i :: 0 <= i < |xs| && p(xs[i])
  {
    if xs != [] {
      FilterKeepsSome(xs[1..], p);
      if !p(xs[0]) {
        assert (exists i :: 0 <= i < |xs| && p(xs[i])) <==> (exists i :: 0 <= i < |xs| - 1 && p(xs[1..][i]));
      }
    }
  }

  /** The set of elements of a sequence. */
  function Elements<T>(xs: seq<T>): set<T> { set x | x in xs }

  /** No element occurs twice. */
  predicate Distinct<T(==)>(xs: seq<T>) { forall i, j :: 0 <= i < j < |xs| ==> xs[i] != xs[j] }

  /** A sequence has at most as many distinct elements as entries, and
      exactly as many when no entry repeats. */
  lemma {:induction false} ElementsCard<T>(xs: seq<T>)
    ensures |Elements(xs)| <= |xs|
    ensures Distinct(xs) ==> |Elements(xs)| == |xs|
  {
    if xs != [] {
      ElementsCard(xs[1..]);
      assert Elements(xs) == {xs[0]} + Elements(xs[1..]);
      if Distinct(xs) {
        assert xs[0] !in Elements(xs[1..]);
      }
    }
  }

  /** A subset is no larger than its superset, and equal to it when it is as large. */
  lemma SubsetCard<T>(a: set<T>, b: set<T>)
    requires a <= b
    ensures |a| <= |b|
    ensures |a| == |b| ==> a == b
  {
    assert b == a + (b - a);
    assert a * (b - a) == {};
    if |a| == |b| {
      assert |b - a| == 0;
    }
  }
}
