/** Python's open-ended slice `xs[start:]`, including negative starts. */
module Slicing {

  function Min(a: int, b: int): int { if a <= b then a else b }

  /** CPython's index normalisation for the start of a slice: a negative start
      counts from the end, and the result is clamped into `[0, n]`. */
  function NormaliseStart(start: int, n: nat): (k: nat)
    ensures k <= n
  {
    var shifted := if start < 0 then start + n else start;
    if shifted < 0 then 0 else if shifted > n then n else shifted
  }

  /** `xs[start:]` */
  function SuffixFrom<T>(xs: seq<T>, start: int): (r: seq<T>)
    ensures |r| <= |xs| && r == xs[|xs| - |r|..]
    ensures start >= 0 ==> |r| == if start >= |xs| then 0 else |xs| - start
    ensures start < 0 ==> |r| == Min(-start, |xs|)
  {
    xs[NormaliseStart(start, |xs|)..]
  }

  /** The last `n` elements of `xs`, or all of them when there are fewer. */
  function LastN<T>(xs: seq<T>, n: nat): (r: seq<T>)
    ensures |r| == Min(n, |xs|)
    ensures r == xs[|xs| - |r|..]
  {
    if |xs| <= n then xs else xs[|xs| - n..]
  }

  /** Taking the last `n` before appending more changes nothing once the last
      `n` of the whole are taken again. */
  lemma LastNAbsorbs<T>(a: seq<T>, b: seq<T>, n: nat)
    ensures LastN(LastN(a, n) + b, n) == LastN(a + b, n)
  {
    if |a| > n {
      var d := |a| - n;
      LastNOfLong(a, n);
      DropThenAppend(a, b, d);
      LastNOfSuffix(a + b, d, n);
    }
  }

  lemma LastNOfLong<T>(xs: seq<T>, n: nat)
    requires |xs| >= n
    ensures LastN(xs, n) == xs[|xs| - n..]
  {
  }

  lemma DropThenAppend<T>(a: seq<T>, b: seq<T>, d: nat)
    requires d <= |a|
    ensures a[d..] + b == (a + b)[d..]
  {
  }

  /** The last `n` of a long enough suffix are the last `n` of the whole. */
  lemma LastNOfSuffix<T>(xs: seq<T>, d: nat, n: nat)
    requires d + n <= |xs|
    ensures LastN(xs[d..], n) == LastN(xs, n)
  {
    LastNOfLong(xs[d..], n);
    LastNOfLong(xs, n);
    assert xs[d..][|xs| - d - n..] == xs[|xs| - n..];
  }

  /** The newest element survives taking the last `n`. */
  lemma LastOfLastN<T>(xs: seq<T>, n: nat)
    requires xs != [] && n >= 1
    ensures LastN(xs, n) != [] && LastN(xs, n)[|LastN(xs, n)| - 1] == xs[|xs| - 1]
  {
  }
}
