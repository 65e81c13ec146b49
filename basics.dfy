/** Small value helpers shared by the model: an optional value (a missing
    dictionary key), sums over sequences, Python's `s[:n]` slice and `str(n)`. */
module Basics {

  datatype Option<T> = None | Some(value: T) {
    /** `d.get(key, default)`: the value when present, the default otherwise. */
    function GetOr(default: T): T {
      match this
      case Some(v) => v
      case None => default
    }
  }

  /** Python's `s[:n]` for a non-negative `n`. */
  function Take<T>(s: seq<T>, n: nat): (r: seq<T>)
    ensures |r| == if n < |s| then n else |s|
    ensures r == s[..|r|]
  {
    if n < |s| then s[..n] else s
  }

  function Max(a: int, b: int): int { if a < b then b else a }

  function DigitChar(d: nat): char
    requires d < 10
  {
    ['0', '1', '2', '3', '4', '5', '6', '7', '8', '9'][d]
  }

  function NatToString(n: nat): (s: string)
    ensures |s| > 0
    decreases n
  {
    if n < 10 then [DigitChar(n)] else NatToString(n / 10) + [DigitChar(n % 10)]
  }

  /** Python's `str(n)` for an integer. */
  function IntToString(n: int): string {
    if n < 0 then "-" + NatToString(-n) else NatToString(n)
  }

  /** Python's `s[:n]` for any integer `n`: a negative `n` drops `-n`
      elements from the end. */
  function Prefix<T>(s: seq<T>, n: int): (r: seq<T>)
    ensures n >= 0 ==> |r| == if n < |s| then n else |s|
    ensures n < 0 ==> |r| == if |s| + n > 0 then |s| + n else 0
    ensures r == s[..|r|]
  {
    if n >= 0 then Take(s, n) else if |s| + n > 0 then s[..|s| + n] else []
  }

  /** A list comprehension with a condition: the elements satisfying `p`, in
      their input order. */
  function Filter<T(!new)>(s: seq<T>, p: T -> bool): (r: seq<T>)
    ensures |r| <= |s|
    ensures forall x :: x in r <==> x in s && p(x)
    ensures forall i :: 0 <= i < |r| ==> p(r[i])
  {
    if s == [] then []
    else
      var front, last := s[..|s| - 1], s[|s| - 1];
      assert s == front + [last];
      Filter(front, p) + (if p(last) then [last] else [])
  }

  /** Filtering keeps the number of occurrences of every element that passes
      and drops every element that does not. */
  lemma {:induction false} FilterCount<T(!new)>(s: seq<T>, p: T -> bool, x: T)
    ensures multiset(Filter(s, p))[x] == if p(x) then multiset(s)[x] else 0
    decreases |s|
  {
    if s != [] {
      var front, last := s[..|s| - 1], s[|s| - 1];
      assert s == front + [last];
      FilterCount(front, p, x);
    }
  }

  /** Filtering distributes over concatenation, so it keeps the input order. */
  lemma {:induction false} FilterAppend<T(!new)>(a: seq<T>, b: seq<T>, p: T -> bool)
    ensures Filter(a + b, p) == Filter(a, p) + Filter(b, p)
    decreases |b|
  {
    if b == [] {
      assert a + b == a;
    } else {
      var front := b[..|b| - 1];
      assert (a + b)[..|a + b| - 1] == a + front;
      FilterAppend(a, front, p);
    }
  }

  /** Nothing passes a filter that no element satisfies. */
  lemma {:induction false} FilterNone<T(!new)>(s: seq<T>, p: T -> bool)
    requires forall i :: 0 <= i < |s| ==> !p(s[i])
    ensures Filter(s, p) == []
    decreases |s|
  {
    if s != [] {
      FilterNone(s[..|s| - 1], p);
    }
  }

  /** `sum(f(x) for x in s)`. */
  function SumOf<T>(s: seq<T>, f: T -> nat): nat {
    if s == [] then 0 else SumOf(s[..|s| - 1], f) + f(s[|s| - 1])
  }

  lemma SumOfSnoc<T>(s: seq<T>, x: T, f: T -> nat)
    ensures SumOf(s + [x], f) == SumOf(s, f) + f(x)
  {
    assert (s + [x])[..|s|] == s;
  }

  /** Summing over a filtered list never gives more than over the whole. */
  lemma {:induction false} SumOfFilterLe<T(!new)>(s: seq<T>, p: T -> bool, f: T -> nat)
    ensures SumOf(Filter(s, p), f) <= SumOf(s, f)
    decreases |s|
  {
    if s != [] {
      var front, last := s[..|s| - 1], s[|s| - 1];
      SumOfFilterLe(front, p, f);
      if p(last) {
        SumOfSnoc(Filter(front, p), last, f);
      } else {
        assert Filter(s, p) == Filter(front, p);
      }
    }
  }

  /** A weaker condition keeps at least as much. */
  lemma {:induction false} SumOfFilterMonotone<T(!new)>(s: seq<T>, p: T -> bool, q: T -> bool, f: T -> nat)
    requires forall x :: p(x) ==> q(x)
    ensures SumOf(Filter(s, p), f) <= SumOf(Filter(s, q), f)
    decreases |s|
  {
    if s != [] {
      var front, last := s[..|s| - 1], s[|s| - 1];
      SumOfFilterMonotone(front, p, q, f);
      var fp, fq := Filter(front, p), Filter(front, q);
      var sp, sq := SumOf(fp, f), SumOf(fq, f);
      assert Filter(s, p) == fp + (if p(last) then [last] else []);
      assert Filter(s, q) == fq + (if q(last) then [last] else []);
      SumOfSnoc(fp, last, f);
      SumOfSnoc(fq, last, f);
      if !p(last) {
        assert Filter(s, p) == fp;
      }
      if !q(last) {
        assert Filter(s, q) == fq;
      }
    }
  }

  /** The least `f(x)` over a non-empty list. */
  function MinOf<T>(s: seq<T>, f: T -> nat): (m: nat)
    requires s != []
    ensures exists i :: 0 <= i < |s| && m == f(s[i])
    ensures forall i :: 0 <= i < |s| ==> m <= f(s[i])
  {
    if |s| == 1 then f(s[0])
    else
      var rest := MinOf(s[..|s| - 1], f);
      if f(s[|s| - 1]) < rest then f(s[|s| - 1]) else rest
  }

  /** The greatest `f(x)` over a non-empty list. */
  function MaxOf<T>(s: seq<T>, f: T -> nat): (m: nat)
    requires s != []
    ensures exists i :: 0 <= i < |s| && m == f(s[i])
    ensures forall i :: 0 <= i < |s| ==> f(s[i]) <= m
  {
    if |s| == 1 then f(s[0])
    else
      var rest := MaxOf(s[..|s| - 1], f);
      if f(s[|s| - 1]) > rest then f(s[|s| - 1]) else rest
  }

  /** A sum over `s` lies between `|s|` times a lower and an upper bound of
      its terms. */
  lemma {:induction false} SumOfBounds<T>(s: seq<T>, f: T -> nat, lo: nat, hi: nat)
    requires forall i :: 0 <= i < |s| ==> lo <= f(s[i]) <= hi
    ensures |s| * lo <= SumOf(s, f) <= |s| * hi
    decreases |s|
  {
    if s != [] {
      var front := s[..|s| - 1];
      assert forall i :: 0 <= i < |front| ==> front[i] == s[i];
      SumOfBounds(front, f, lo, hi);
      MulSucc(|front|, lo);
      MulSucc(|front|, hi);
    }
  }

  lemma MulSucc(n: nat, x: int)
    ensures (n + 1) * x == n * x + x
  {
  }

  /** `sum(f(x) for x in s) / len(s)` on a non-empty list. */
  function Mean<T>(s: seq<T>, f: T -> nat): real
    requires s != []
  {
    SumOf(s, f) as real / |s| as real
  }

  lemma MulMono(n: nat, a: int, b: int)
    requires a <= b
    ensures n * a <= n * b
  {
    assert n * b - n * a == n * (b - a);
  }

  lemma MulCancel(n: nat, a: int, b: int)
    ensures n * a < n * b ==> a < b
  {
    if b <= a {
      MulMono(n, b, a);
    }
  }

  /** Integer division of a total of `n` values, each between `lo` and `hi`,
      by `n` stays between `lo` and `hi`. */
  lemma FloorDivBounds(total: nat, n: nat, lo: nat, hi: nat)
    requires n > 0 && n * lo <= total <= n * hi
    ensures lo <= total / n <= hi
  {
    var q := total / n;
    assert n * q <= total < n * q + n;
    assert n * (q + 1) == n * q + n;
    assert n * (hi + 1) == n * hi + n;
    MulCancel(n, lo, q + 1);
    MulCancel(n, q, hi + 1);
  }

  lemma DivBounds(total: real, n: real, lo: real, hi: real)
    requires n > 0.0 && n * lo <= total <= n * hi
    ensures lo <= total / n <= hi
  {
    var q := total / n;
    assert q * n == total;
  }

  /** The mean lies between any lower and upper bound of the terms. */
  lemma MeanBounds<T>(s: seq<T>, f: T -> nat, lo: nat, hi: nat)
    requires s != []
    requires forall i :: 0 <= i < |s| ==> lo <= f(s[i]) <= hi
    ensures lo as real <= Mean(s, f) <= hi as real
  {
    SumOfBounds(s, f, lo, hi);
    DivBounds(SumOf(s, f) as real, |s| as real, lo as real, hi as real);
  }

  /** Python's `str(x)` for an optional integer (`str(None)` is "None"). */
  function OptIntToString(x: Option<int>): string {
    match x
    case Some(n) => IntToString(n)
    case None => "None"
  }
}
