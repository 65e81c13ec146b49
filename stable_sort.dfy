/** Python's `list.sort` and `sorted` are stable: elements that compare equal
    keep their input order, and `reverse=True` keeps that stability. A stable
    sort is unique, so it is modelled here by insertion sort, both as a function
    (the specification) and as the in-place array algorithm.

    `le(a, b)` says that `a` may stand before `b`: `key(a) <= key(b)` for an
    ascending sort, `key(a) >= key(b)` for `reverse=True`. */
module StableSort {
  import opened Basics

  /** Inserts `x` behind every element of `s` that may precede it. */
  function Insert<T>(s: seq<T>, x: T, le: (T, T) -> bool): (r: seq<T>)
    ensures |r| == |s| + 1
  {
    if s == [] || le(s[|s| - 1], x) then s + [x]
    else Insert(s[..|s| - 1], x, le) + [s[|s| - 1]]
  }

  function SortBy<T>(s: seq<T>, le: (T, T) -> bool): (r: seq<T>)
    ensures |r| == |s|
  {
    if s == [] then [] else Insert(SortBy(s[..|s| - 1], le), s[|s| - 1], le)
  }

  ghost predicate TotalPreorder<T(!new)>(le: (T, T) -> bool) {
    && (forall a, b :: le(a, b) || le(b, a))
    && (forall a, b, c :: le(a, b) && le(b, c) ==> le(a, c))
  }

  ghost predicate Sorted<T>(s: seq<T>, le: (T, T) -> bool) {
    forall i, j :: 0 <= i < j < |s| ==> le(s[i], s[j])
  }

  lemma {:induction false} InsertSorted<T(!new)>(s: seq<T>, x: T, le: (T, T) -> bool)
    requires TotalPreorder(le)
    requires Sorted(s, le)
    ensures Sorted(Insert(s, x, le), le)
    ensures multiset(Insert(s, x, le)) == multiset(s) + multiset{x}
    decreases |s|
  {
    if s == [] || le(s[|s| - 1], x) {
      assert Insert(s, x, le) == s + [x];
    } else {
      var front, last := s[..|s| - 1], s[|s| - 1];
      assert s == front + [last];
      InsertSorted(front, x, le);
      var r := Insert(front, x, le);
      assert Insert(s, x, le) == r + [last];
      assert le(x, last);
      forall k | 0 <= k < |r| ensures le(r[k], last) {
        assert r[k] in multiset(r);
        if r[k] != x {
          assert r[k] in multiset(front);
          var m :| 0 <= m < |front| && front[m] == r[k];
          assert le(s[m], s[|s| - 1]);
        }
      }
    }
  }

  /** The result of SortBy is ordered by `le` and is a permutation of the input. */
  lemma {:induction false} SortBySorted<T(!new)>(s: seq<T>, le: (T, T) -> bool)
    requires TotalPreorder(le)
    ensures Sorted(SortBy(s, le), le)
    ensures multiset(SortBy(s, le)) == multiset(s)
    decreases |s|
  {
    if s != [] {
      var front := s[..|s| - 1];
      assert s == front + [s[|s| - 1]];
      SortBySorted(front, le);
      InsertSorted(SortBy(front, le), s[|s| - 1], le);
    }
  }

  /** Sorting an already ordered sequence leaves it as it is: in particular
      elements that compare equal keep their order. */
  lemma {:induction false} SortBySortedIsIdentity<T>(s: seq<T>, le: (T, T) -> bool)
    requires Sorted(s, le)
    ensures SortBy(s, le) == s
    decreases |s|
  {
    if s != [] {
      var front := s[..|s| - 1];
      assert Sorted(front, le);
      SortBySortedIsIdentity(front, le);
      if |front| > 0 {
        assert le(front[|front| - 1], s[|s| - 1]);
      }
      assert front + [s[|s| - 1]] == s;
    }
  }

  /** A comprehension over an ordered sequence keeps it ordered. */
  lemma {:induction false} FilterKeepsSorted<T(!new)>(s: seq<T>, p: T -> bool, le: (T, T) -> bool)
    requires Sorted(s, le)
    ensures Sorted(Filter(s, p), le)
    decreases |s|
  {
    if s != [] {
      var front, last := s[..|s| - 1], s[|s| - 1];
      assert s == front + [last];
      assert Sorted(front, le);
      FilterKeepsSorted(front, p, le);
      var r := Filter(front, p);
      forall i | 0 <= i < |r| ensures le(r[i], last) {
        assert r[i] in front;
        var m :| 0 <= m < |front| && front[m] == r[i];
        assert s[m] == r[i];
      }
    }
  }

  /** Every element of the input occurs in the sorted result, and conversely. */
  lemma SortByMembers<T(!new)>(s: seq<T>, le: (T, T) -> bool, x: T)
    requires TotalPreorder(le)
    ensures x in SortBy(s, le) <==> x in s
  {
    SortBySorted(s, le);
    assert x in SortBy(s, le) <==> x in multiset(SortBy(s, le));
    assert x in s <==> x in multiset(s);
  }

  /** `rk` increases along `s` among elements that `le` cannot tell apart. */
  ghost predicate StableBy<T>(s: seq<T>, le: (T, T) -> bool, rk: T -> int) {
    forall i, j :: 0 <= i < j < |s| && le(s[i], s[j]) && le(s[j], s[i]) ==> rk(s[i]) < rk(s[j])
  }

  lemma {:induction false} InsertMembers<T>(s: seq<T>, x: T, le: (T, T) -> bool, y: T)
    ensures y in Insert(s, x, le) <==> y in s || y == x
    decreases |s|
  {
    if s != [] && !le(s[|s| - 1], x) {
      var front := s[..|s| - 1];
      assert s == front + [s[|s| - 1]];
      InsertMembers(front, x, le, y);
    }
  }

  /** Inserting an element of higher rank than everything already there
      keeps equivalent elements in rank order: it goes behind its
      equivalents. */
  lemma {:induction false} InsertKeepsRank<T>(s: seq<T>, x: T, le: (T, T) -> bool, rk: T -> int)
    requires StableBy(s, le, rk)
    requires forall y :: y in s ==> rk(y) < rk(x)
    ensures StableBy(Insert(s, x, le), le, rk)
    decreases |s|
  {
    if s == [] || le(s[|s| - 1], x) {
      var r := s + [x];
      assert Insert(s, x, le) == r;
      forall i, j | 0 <= i < j < |r| && le(r[i], r[j]) && le(r[j], r[i]) ensures rk(r[i]) < rk(r[j]) {
        assert r[i] == s[i];
        if j < |s| {
          assert r[j] == s[j];
        }
      }
    } else {
      var front, last := s[..|s| - 1], s[|s| - 1];
      assert s == front + [last];
      assert StableBy(front, le, rk);
      InsertKeepsRank(front, x, le, rk);
      var ins := Insert(front, x, le);
      var r := ins + [last];
      assert Insert(s, x, le) == r;
      forall i, j | 0 <= i < j < |r| && le(r[i], r[j]) && le(r[j], r[i]) ensures rk(r[i]) < rk(r[j]) {
        if j < |ins| {
          assert r[i] == ins[i] && r[j] == ins[j];
        } else {
          assert r[i] == ins[i] && r[j] == last;
          InsertMembers(front, x, le, r[i]);
          if r[i] != x {
            var m :| 0 <= m < |front| && front[m] == r[i];
            assert s[m] == r[i];
          }
        }
      }
    }
  }

  /** Stability: when a rank increases strictly along the input (its
      position, say), it still increases among the elements that compare
      equal after sorting, so equal elements keep their input order. */
  lemma {:induction false} SortByStable<T(!new)>(s: seq<T>, le: (T, T) -> bool, rk: T -> int)
    requires TotalPreorder(le)
    requires forall i, j :: 0 <= i < j < |s| ==> rk(s[i]) < rk(s[j])
    ensures StableBy(SortBy(s, le), le, rk)
    decreases |s|
  {
    if s != [] {
      var front, last := s[..|s| - 1], s[|s| - 1];
      assert forall i, j :: 0 <= i < j < |front| ==> front[i] == s[i] && front[j] == s[j];
      SortByStable(front, le, rk);
      forall y | y in SortBy(front, le) ensures rk(y) < rk(last) {
        SortByMembers(front, le, y);
        var m :| 0 <= m < |front| && front[m] == y;
        assert s[m] == y;
      }
      InsertKeepsRank(SortBy(front, le), last, le, rk);
    }
  }

  /** The elements of `s` that `le` cannot tell apart from `z`, in order. */
  function Equivalents<T(!new)>(s: seq<T>, le: (T, T) -> bool, z: T): seq<T> {
    Filter(s, y => le(z, y) && le(y, z))
  }

  /** `Insert` puts `x` at some position `k`, behind which no element may
      precede `x`. */
  lemma {:induction false} InsertPosition<T>(s: seq<T>, x: T, le: (T, T) -> bool) returns (k: nat)
    ensures k <= |s| && Insert(s, x, le) == s[..k] + [x] + s[k..]
    ensures forall j :: k <= j < |s| ==> !le(s[j], x)
    decreases |s|
  {
    if s == [] || le(s[|s| - 1], x) {
      k := |s|;
      assert s[..k] == s && s[k..] == [];
    } else {
      var front, last := s[..|s| - 1], s[|s| - 1];
      k := InsertPosition(front, x, le);
      assert front[..k] == s[..k];
      assert front[k..] + [last] == s[k..];
      forall j | k <= j < |s| ensures !le(s[j], x) {
        if j < |front| {
          assert s[j] == front[j];
        }
      }
    }
  }

  lemma EquivalentsAppend<T(!new)>(a: seq<T>, b: seq<T>, le: (T, T) -> bool, z: T)
    ensures Equivalents(a + b, le, z) == Equivalents(a, le, z) + Equivalents(b, le, z)
  {
    FilterAppend(a, b, y => le(z, y) && le(y, z));
  }

  /** Elements that may not precede an equivalent of `z` are not themselves
      equivalent to `z`. */
  lemma NoEquivalentsBehind<T(!new)>(b: seq<T>, x: T, le: (T, T) -> bool, z: T)
    requires forall y :: le(y, z) && le(z, x) ==> le(y, x)
    requires le(z, x) && le(x, z)
    requires forall j :: 0 <= j < |b| ==> !le(b[j], x)
    ensures Equivalents(b, le, z) == []
  {
    FilterNone(b, y => le(z, y) && le(y, z));
  }

  /** Moving `x` behind `b` does not reorder a class that `x` or `b` has
      no member of. */
  lemma MoveBehind<T(!new)>(a: seq<T>, x: T, b: seq<T>, le: (T, T) -> bool, z: T)
    requires Equivalents(b, le, z) == [] || Equivalents([x], le, z) == []
    ensures Equivalents(a + [x] + b, le, z) == Equivalents(a + b + [x], le, z)
  {
    EquivalentsAppend3(a, [x], b, le, z);
    EquivalentsAppend3(a, b, [x], le, z);
    SwapEmpty(Equivalents(a, le, z), Equivalents([x], le, z), Equivalents(b, le, z));
  }

  lemma SwapEmpty<T>(u: seq<T>, v: seq<T>, w: seq<T>)
    requires v == [] || w == []
    ensures u + v + w == u + w + v
  {
  }

  lemma EquivalentsAppend3<T(!new)>(a: seq<T>, m: seq<T>, b: seq<T>, le: (T, T) -> bool, z: T)
    ensures Equivalents(a + m + b, le, z) == Equivalents(a, le, z) + Equivalents(m, le, z) + Equivalents(b, le, z)
  {
    EquivalentsAppend(a + m, b, le, z);
    EquivalentsAppend(a, m, le, z);
  }

  /** Inserting `x` appends it to its class of equivalents: every
      equivalent of `x` already there stays in front of it. */
  lemma InsertEquivalents<T(!new)>(s: seq<T>, x: T, le: (T, T) -> bool, z: T)
    requires forall y :: le(y, z) && le(z, x) ==> le(y, x)
    ensures Equivalents(Insert(s, x, le), le, z) == Equivalents(s + [x], le, z)
  {
    var k := InsertPosition(s, x, le);
    var a, b := s[..k], s[k..];
    assert s == a + b;
    if le(z, x) && le(x, z) {
      assert forall j :: 0 <= j < |b| ==> b[j] == s[k + j];
      NoEquivalentsBehind(b, x, le, z);
    } else {
      assert Equivalents([x], le, z) == [];
    }
    MoveBehind(a, x, b, le, z);
  }

  /** Stability for every input: sorting keeps each class of elements that
      compare equal in its input order. */
  lemma {:induction false} SortByKeepsEquivalents<T(!new)>(s: seq<T>, le: (T, T) -> bool, z: T)
    requires TotalPreorder(le)
    ensures Equivalents(SortBy(s, le), le, z) == Equivalents(s, le, z)
    decreases |s|
  {
    if s != [] {
      var front, last := s[..|s| - 1], s[|s| - 1];
      assert s == front + [last];
      SortByKeepsEquivalents(front, le, z);
      InsertEquivalents(SortBy(front, le), last, le, z);
      EquivalentsAppend(front, [last], le, z);
    }
  }

  lemma InsertStep<T>(p: seq<T>, j: nat, x: T, le: (T, T) -> bool)
    requires 0 < j <= |p|
    requires !le(p[j - 1], x)
    ensures Insert(p[..j], x, le) + p[j..] == Insert(p[..j - 1], x, le) + p[j - 1..]
  {
    assert p[..j][..j - 1] == p[..j - 1];
    assert p[j - 1..] == [p[j - 1]] + p[j..];
  }

  lemma InsertStops<T>(p: seq<T>, j: nat, x: T, le: (T, T) -> bool)
    requires j <= |p|
    requires j == 0 || le(p[j - 1], x)
    ensures Insert(p[..j], x, le) == p[..j] + [x]
  {
  }

  /** One pass of insertion sort: moves `a[i]` left past every element of the
      sorted prefix `a[..i]` that may not precede it. */
  method InsertInPlace<T>(a: array<T>, i: nat, le: (T, T) -> bool)
    requires i < a.Length
    modifies a
    ensures a[..] == Insert(old(a[..])[..i], old(a[..])[i], le) + old(a[..])[i + 1..]
  {
    ghost var p := a[..][..i];
    ghost var rest := a[..][i + 1..];
    var x := a[i];
    assert p[..i] == p && p[i..] == [];
    assert a[..] == p[..i] + [x] + p[i..] + rest;
    var j := i;
    while j > 0 && !le(a[j - 1], x)
      invariant 0 <= j <= i
      invariant a[..] == p[..j] + [x] + p[j..] + rest
      invariant Insert(p, x, le) == Insert(p[..j], x, le) + p[j..]
    {
      InsertStep(p, j, x, le);
      ShiftStep(p, j, x, rest);
      a[j - 1], a[j] := x, a[j - 1];
      j := j - 1;
    }
    InsertStops(p, j, x, le);
  }

  /** Swapping `x` with the element before it moves the gap one place left. */
  lemma ShiftStep<T>(p: seq<T>, j: nat, x: T, rest: seq<T>)
    requires 0 < j <= |p|
    ensures (p[..j] + [x] + p[j..] + rest)[j - 1 := x][j := p[j - 1]] == p[..j - 1] + [x] + p[j - 1..] + rest
  {
    var u := (p[..j] + [x] + p[j..] + rest)[j - 1 := x][j := p[j - 1]];
    var v := p[..j - 1] + [x] + p[j - 1..] + rest;
    assert |u| == |v|;
    forall k | 0 <= k < |u| ensures u[k] == v[k] {
      if k < j - 1 {
      } else if k == j - 1 {
      } else if k == j {
      } else if k < |p| + 1 {
        assert u[k] == p[k - 1];
      }
    }
  }

  /** One pass of the outer loop: inserting the next element into the
      sorted prefix extends it by that element. */
  lemma SortStep<T>(s: seq<T>, i: nat, le: (T, T) -> bool, cur: seq<T>, next: seq<T>)
    requires i < |s| && cur == SortBy(s[..i], le) + s[i..]
    requires next == Insert(cur[..i], cur[i], le) + cur[i + 1..]
    ensures next == SortBy(s[..i + 1], le) + s[i + 1..]
  {
    var u, v := SortBy(s[..i], le), s[i..];
    assert cur[..i] == u && cur[i] == v[0] && cur[i + 1..] == v[1..];
    assert s[..i + 1][..i] == s[..i];
    assert v[1..] == s[i + 1..];
  }

  /** Insertion sort of an array in place; the array ends up holding exactly
      what SortBy computes from its initial contents. */
  method SortInPlace<T>(a: array<T>, le: (T, T) -> bool)
    modifies a
    ensures a[..] == SortBy(old(a[..]), le)
  {
    ghost var s := a[..];
    var i := 0;
    while i < a.Length
      invariant 0 <= i <= a.Length
      invariant a[..] == SortBy(s[..i], le) + s[i..]
    {
      ghost var cur := a[..];
      InsertInPlace(a, i, le);
      SortStep(s, i, le, cur, a[..]);
      i := i + 1;
    }
    assert s[..a.Length] == s && s[a.Length..] == [];
  }
}
