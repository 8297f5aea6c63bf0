/**
 * The array operations the pages use on their state: `Array.prototype.filter`
 * and the additive `Array.prototype.reduce`, stated over sequences.
 */
module Seqs {

  /** `a` is an order-preserving subsequence of `b`: `b` with some elements deleted. */
  predicate IsSubseq<T(==)>(a: seq<T>, b: seq<T>)
    decreases |b|
  {
    a == [] || (b != [] && ((a[0] == b[0] && IsSubseq(a[1..], b[1..])) || IsSubseq(a, b[1..])))
  }

  /**
   * `s.filter(p)`: the elements of `s` that satisfy `p`, each as often as it
   * occurs in `s`, in their original order.
   */
  function Filter<T(==,!new)>(s: seq<T>, p: T -> bool): (r: seq<T>)
    ensures |r| <= |s|
    ensures forall i :: 0 <= i < |r| ==> p(r[i])
    ensures forall x :: x in r <==> x in s && p(x)
    ensures forall x :: multiset(r)[x] == if p(x) then multiset(s)[x] else 0
    ensures IsSubseq(r, s)
  {
    if s == [] then []
    else
      assert s == [s[0]] + s[1..];
      var rest := Filter(s[1..], p);
      if p(s[0]) then
        assert ([s[0]] + rest)[1..] == rest;
        [s[0]] + rest
      else
        rest
  }

  /** Filtering with a predicate that every element satisfies keeps the whole sequence. */
  lemma {:induction false} FilterKeepsAll<T(!new)>(s: seq<T>, p: T -> bool)
    requires forall i :: 0 <= i < |s| ==> p(s[i])
    ensures Filter(s, p) == s
  {
    if s != [] {
      FilterKeepsAll(s[1..], p);
      assert s == [s[0]] + s[1..];
    }
  }

  /** When no two elements both satisfy `p`, filtering keeps at most one element. */
  lemma {:induction false} FilterAtMostOne<T(!new)>(s: seq<T>, p: T -> bool)
    requires forall i, j :: 0 <= i < j < |s| ==> !(p(s[i]) && p(s[j]))
    ensures |Filter(s, p)| <= 1
  {
    if s != [] {
      FilterAtMostOne(s[1..], p);
      if p(s[0]) {
        forall x | x in s[1..]
          ensures !p(x)
        {
          var k :| 0 <= k < |s[1..]| && s[1..][k] == x;
          assert x == s[k + 1];
        }
        assert Filter(s[1..], p) == [];
      }
    }
  }

  /** Two filters with predicates no element satisfies together take at most `|s|` elements between them. */
  lemma {:induction false} FilterDisjointLength<T(!new)>(s: seq<T>, p: T -> bool, q: T -> bool)
    requires forall i :: 0 <= i < |s| ==> !(p(s[i]) && q(s[i]))
    ensures |Filter(s, p)| + |Filter(s, q)| <= |s|
  {
    if s != [] {
      FilterDisjointLength(s[1..], p, q);
    }
  }

  /**
   * When every element satisfies exactly one of `p`, `q` and `r`, the three
   * filters partition `s`: their lengths add up to `|s|`.
   */
  lemma {:induction false} FilterPartitionLength<T(!new)>(s: seq<T>, p: T -> bool, q: T -> bool, r: T -> bool)
    requires forall i :: 0 <= i < |s| ==> (p(s[i]) || q(s[i]) || r(s[i]))
    requires forall i :: 0 <= i < |s| ==> !(p(s[i]) && q(s[i])) && !(p(s[i]) && r(s[i])) && !(q(s[i]) && r(s[i]))
    ensures |Filter(s, p)| + |Filter(s, q)| + |Filter(s, r)| == |s|
  {
    if s != [] {
      FilterPartitionLength(s[1..], p, q, r);
    }
  }

  /** The sum of `f` over `s`, as a mathematician writes it. */
  function SumOf<T>(s: seq<T>, f: T -> int): int
  {
    if s == [] then 0 else f(s[0]) + SumOf(s[1..], f)
  }

  /**
   * `s.reduce((acc, x) => acc + f(x), acc)`: a left fold that adds `f` of
   * each element to an accumulator, first element first.
   */
  function ReduceAdd<T>(acc: int, s: seq<T>, f: T -> int): int
    decreases |s|
  {
    if s == [] then acc else ReduceAdd(acc + f(s[0]), s[1..], f)
  }

  /** The left fold computes the sum: `ReduceAdd(acc, s, f) == acc + SumOf(s, f)`. */
  lemma {:induction false} ReduceAddIsSum<T>(acc: int, s: seq<T>, f: T -> int)
    ensures ReduceAdd(acc, s, f) == acc + SumOf(s, f)
    decreases |s|
  {
    if s != [] {
      ReduceAddIsSum(acc + f(s[0]), s[1..], f);
    }
  }

}
