/** `Counter(values).most_common(n)` as used for the stack popularity of
    `calculate_metrics` (market_api.py): values are counted in order of first
    appearance, and the `n` most frequent are returned by a stable sort on
    the count, so equal counts keep first-appearance order. */
module StackPopularity {
  import opened Basics
  import opened StableSort

  /** A counted value and the number of times it occurs. */
  type Entry = (nat, nat)

  /** The index of the entry for `q`, or `|t|` when there is none. */
  function IndexOfValue(t: seq<Entry>, q: nat): (i: nat)
    ensures i <= |t|
    ensures i < |t| ==> t[i].0 == q
    ensures forall j :: 0 <= j < i ==> t[j].0 != q
  {
    if t == [] then 0
    else if t[0].0 == q then 0
    else 1 + IndexOfValue(t[1..], q)
  }

  /** The items of `Counter(qs)` in insertion order. */
  function Tally(qs: seq<nat>): seq<Entry> {
    if qs == [] then []
    else
      var t := Tally(qs[..|qs| - 1]);
      var q := qs[|qs| - 1];
      var i := IndexOfValue(t, q);
      if i < |t| then t[i := (q, t[i].1 + 1)] else t + [(q, 1)]
  }

  predicate DistinctValues(t: seq<Entry>) {
    forall i, j :: 0 <= i < j < |t| ==> t[i].0 != t[j].0
  }

  /** No value has two entries. */
  lemma {:induction false} TallyDistinct(qs: seq<nat>)
    ensures DistinctValues(Tally(qs))
    decreases |qs|
  {
    if qs != [] {
      TallyDistinct(qs[..|qs| - 1]);
    }
  }

  /** Every entry holds a value of `qs` and its number of occurrences. */
  lemma {:induction false} TallyCountsExact(qs: seq<nat>)
    ensures forall i :: 0 <= i < |Tally(qs)| ==>
              Tally(qs)[i].0 in qs && Tally(qs)[i].1 == multiset(qs)[Tally(qs)[i].0]
    decreases |qs|
  {
    if qs != [] {
      var front, q := qs[..|qs| - 1], qs[|qs| - 1];
      assert qs == front + [q];
      TallyCountsExact(front);
      TallyDistinct(front);
      TallyCovers(front);
      var t := Tally(front);
      var i := IndexOfValue(t, q);
      assert multiset(qs) == multiset(front) + multiset{q};
      forall k | 0 <= k < |Tally(qs)|
        ensures Tally(qs)[k].0 in qs && Tally(qs)[k].1 == multiset(qs)[Tally(qs)[k].0]
      {
        if k < |t| && k != i {
          assert Tally(qs)[k] == t[k];
          assert t[k].0 != q;
        } else if i == |t| {
          assert q !in front;
        }
      }
    }
  }

  /** Every value of `qs` has an entry. */
  lemma {:induction false} TallyCovers(qs: seq<nat>)
    ensures forall q :: q in qs ==> exists i :: 0 <= i < |Tally(qs)| && Tally(qs)[i].0 == q
    decreases |qs|
  {
    if qs != [] {
      var front, last := qs[..|qs| - 1], qs[|qs| - 1];
      assert qs == front + [last];
      TallyCovers(front);
      var t := Tally(front);
      var i := IndexOfValue(t, last);
      assert |Tally(qs)| >= |t|;
      forall p | p in qs ensures exists k :: 0 <= k < |Tally(qs)| && Tally(qs)[k].0 == p {
        if p != last {
          assert p in front;
          var k :| 0 <= k < |t| && t[k].0 == p;
          assert Tally(qs)[k].0 == p;
        } else if i < |t| {
          assert Tally(qs)[i].0 == p;
        } else {
          assert Tally(qs)[|t|].0 == p;
        }
      }
    }
  }

  /** Every value of `qs` has exactly one entry, holding its number of
      occurrences, and nothing else is counted. */
  lemma TallyCounts(qs: seq<nat>)
    ensures DistinctValues(Tally(qs))
    ensures forall i :: 0 <= i < |Tally(qs)| ==>
              Tally(qs)[i].0 in qs && Tally(qs)[i].1 == multiset(qs)[Tally(qs)[i].0]
    ensures forall q :: q in qs ==> exists i :: 0 <= i < |Tally(qs)| && Tally(qs)[i].0 == q
  {
    TallyDistinct(qs);
    TallyCountsExact(qs);
    TallyCovers(qs);
  }

  /** The index of the first occurrence of `q` in `qs`, or `|qs|`. */
  function FirstOccurrence(qs: seq<nat>, q: nat): (i: nat)
    ensures i <= |qs|
    ensures i < |qs| ==> qs[i] == q
    ensures forall j :: 0 <= j < i ==> qs[j] != q
  {
    if qs == [] then 0
    else if qs[0] == q then 0
    else 1 + FirstOccurrence(qs[1..], q)
  }

  /** Appending a value does not move the first occurrence of one already seen. */
  lemma FirstOccurrenceSnoc(front: seq<nat>, x: nat, v: nat)
    requires v in front
    ensures FirstOccurrence(front + [x], v) == FirstOccurrence(front, v) < |front|
  {
    var qs := front + [x];
    var a, b := FirstOccurrence(qs, v), FirstOccurrence(front, v);
    var m :| 0 <= m < |front| && front[m] == v;
    assert qs[m] == v;
    assert b <= m;
    assert qs[b] == front[b];
    assert a <= b;
    assert front[a] == qs[a];
  }

  /** A value seen for the first time first occurs at the end. */
  lemma FirstOccurrenceLast(front: seq<nat>, x: nat)
    requires x !in front
    ensures FirstOccurrence(front + [x], x) == |front|
  {
    var qs := front + [x];
    assert qs[|front|] == x;
    assert forall k :: 0 <= k < |front| ==> qs[k] == front[k];
  }

  /** The entries of the counter are in order of first appearance. */
  lemma {:induction false} TallyFirstSeenOrder(qs: seq<nat>)
    ensures forall i, j :: 0 <= i < j < |Tally(qs)| ==>
              FirstOccurrence(qs, Tally(qs)[i].0) < FirstOccurrence(qs, Tally(qs)[j].0)
    decreases |qs|
  {
    if qs != [] {
      var front, q := qs[..|qs| - 1], qs[|qs| - 1];
      assert qs == front + [q];
      TallyFirstSeenOrder(front);
      TallyCountsExact(front);
      TallyCovers(front);
      var t := Tally(front);
      var idx := IndexOfValue(t, q);
      var r := Tally(qs);
      forall k | 0 <= k < |t|
        ensures r[k].0 == t[k].0
        ensures FirstOccurrence(qs, t[k].0) == FirstOccurrence(front, t[k].0) < |front|
      {
        FirstOccurrenceSnoc(front, q, t[k].0);
      }
      if idx == |t| {
        assert q !in front;
        FirstOccurrenceLast(front, q);
        assert r[|t|].0 == q;
      }
    }
  }

  /** The rank `most_common` keeps among equal counts: first appearance. */
  function FirstSeen(qs: seq<nat>): Entry -> int {
    (e: Entry) => FirstOccurrence(qs, e.0)
  }

  /** `a` may stand before `b` in `most_common`: its count is at least as large. */
  function CountAtLeast(a: Entry, b: Entry): bool { a.1 >= b.1 }

  lemma CountOrderIsTotal()
    ensures TotalPreorder(CountAtLeast)
  {
  }

  /** `Counter(qs).most_common(n)`. */
  function MostCommon(qs: seq<nat>, n: nat): seq<Entry> {
    Take(SortBy(Tally(qs), CountAtLeast), n)
  }

  lemma {:induction false} NoDuplicateCount<T>(s: seq<T>, x: T)
    requires forall i, j :: 0 <= i < j < |s| ==> s[i] != s[j]
    ensures multiset(s)[x] <= 1
    decreases |s|
  {
    if s != [] {
      var front := s[..|s| - 1];
      assert s == front + [s[|s| - 1]];
      NoDuplicateCount(front, x);
      if x == s[|s| - 1] {
        assert x !in front;
      }
    }
  }

  lemma DuplicateCount<T>(s: seq<T>, i: nat, j: nat)
    requires i < j < |s| && s[i] == s[j]
    ensures multiset(s)[s[i]] >= 2
  {
    assert s == s[..j] + s[j..];
    assert s[i] in s[..j];
    assert s[j] in s[j..];
  }

  /** A reordering of entries with distinct values also has distinct values. */
  lemma PermutationKeepsDistinct(t: seq<Entry>, u: seq<Entry>)
    requires DistinctValues(t) && multiset(u) == multiset(t)
    ensures DistinctValues(u)
  {
    forall i, j | 0 <= i < j < |u| ensures u[i].0 != u[j].0 {
      if u[i].0 == u[j].0 {
        assert u[i] in multiset(t) && u[j] in multiset(t);
        var a :| 0 <= a < |t| && t[a] == u[i];
        var b :| 0 <= b < |t| && t[b] == u[j];
        assert a == b;
        assert u[i] == u[j];
        DuplicateCount(u, i, j);
        NoDuplicateCount(t, u[i]);
        assert false;
      }
    }
  }

  /** The entries `most_common` chooses from: the tally sorted by count,
      largest first, each with a distinct value and its true count. */
  lemma SortedTally(qs: seq<nat>)
    ensures var sorted := SortBy(Tally(qs), CountAtLeast);
      && DistinctValues(sorted)
      && (forall i :: 0 <= i < |sorted| ==> sorted[i].0 in qs && sorted[i].1 == multiset(qs)[sorted[i].0])
      && (forall q :: q in qs ==> exists j :: 0 <= j < |sorted| && sorted[j].0 == q)
      && Sorted(sorted, CountAtLeast)
  {
    var t := Tally(qs);
    var sorted := SortBy(t, CountAtLeast);
    TallyCounts(qs);
    CountOrderIsTotal();
    SortBySorted(t, CountAtLeast);
    PermutationKeepsDistinct(t, sorted);
    forall i | 0 <= i < |sorted| ensures sorted[i] in t {
      assert sorted[i] in multiset(t);
    }
    forall q | q in qs ensures exists j :: 0 <= j < |sorted| && sorted[j].0 == q {
      var k :| 0 <= k < |t| && t[k].0 == q;
      assert t[k] in multiset(sorted);
    }
  }

  /** The entries `most_common(n)` returns: at most `n`, with distinct
      values and their true counts, largest count first. */
  lemma MostCommonChosen(qs: seq<nat>, n: nat)
    ensures var r := MostCommon(qs, n);
      && |r| <= n
      && DistinctValues(r)
      && (forall i :: 0 <= i < |r| ==> r[i].0 in qs && r[i].1 == multiset(qs)[r[i].0])
      && (forall i, j :: 0 <= i < j < |r| ==> r[i].1 >= r[j].1)
  {
    var sorted := SortBy(Tally(qs), CountAtLeast);
    var r := MostCommon(qs, n);
    SortedTally(qs);
    assert forall i :: 0 <= i < |r| ==> r[i] == sorted[i];
  }

  /** A value left out by `most_common(n)` occurs no more often than any
      value returned, and is only left out when `n` entries were returned. */
  lemma MostCommonOmitted(qs: seq<nat>, n: nat)
    ensures var r := MostCommon(qs, n);
      forall q :: q in qs && (forall i :: 0 <= i < |r| ==> r[i].0 != q) ==>
        |r| == n && forall i :: 0 <= i < |r| ==> multiset(qs)[q] <= r[i].1
  {
    var sorted := SortBy(Tally(qs), CountAtLeast);
    var r := MostCommon(qs, n);
    SortedTally(qs);
    assert forall i :: 0 <= i < |r| ==> r[i] == sorted[i];
    forall q | q in qs && (forall i :: 0 <= i < |r| ==> r[i].0 != q)
      ensures |r| == n && forall i :: 0 <= i < |r| ==> multiset(qs)[q] <= r[i].1
    {
      var j :| 0 <= j < |sorted| && sorted[j].0 == q;
      assert j >= |r|;
      forall i | 0 <= i < |r| ensures multiset(qs)[q] <= r[i].1 {
        assert CountAtLeast(sorted[i], sorted[j]);
      }
    }
  }

  /** Values with equal counts come out of `most_common(n)` in the order in
      which they first appear in `qs`. */
  lemma MostCommonTies(qs: seq<nat>, n: nat)
    ensures var r := MostCommon(qs, n);
      forall i, j :: 0 <= i < j < |r| && r[i].1 == r[j].1 ==>
        FirstOccurrence(qs, r[i].0) < FirstOccurrence(qs, r[j].0)
  {
    var t := Tally(qs);
    var sorted := SortBy(t, CountAtLeast);
    var r := MostCommon(qs, n);
    TallyFirstSeenOrder(qs);
    CountOrderIsTotal();
    assert forall i, j :: 0 <= i < j < |t| ==> FirstSeen(qs)(t[i]) < FirstSeen(qs)(t[j]);
    SortByStable(t, CountAtLeast, FirstSeen(qs));
    assert forall i :: 0 <= i < |r| ==> r[i] == sorted[i];
    forall i, j | 0 <= i < j < |r| && r[i].1 == r[j].1
      ensures FirstOccurrence(qs, r[i].0) < FirstOccurrence(qs, r[j].0)
    {
      assert CountAtLeast(sorted[i], sorted[j]) && CountAtLeast(sorted[j], sorted[i]);
    }
  }

  /** `most_common(n)` returns at most `n` distinct values with their true
      counts, largest count first and equal counts in order of first
      appearance; a value left out occurs no more often than any value
      returned, and is only left out when `n` entries were returned. */
  lemma MostCommonSpec(qs: seq<nat>, n: nat)
    ensures var r := MostCommon(qs, n);
      && |r| <= n
      && DistinctValues(r)
      && (forall i :: 0 <= i < |r| ==> r[i].0 in qs && r[i].1 == multiset(qs)[r[i].0])
      && (forall i, j :: 0 <= i < j < |r| ==> r[i].1 >= r[j].1)
      && (forall i, j :: 0 <= i < j < |r| && r[i].1 == r[j].1 ==>
            FirstOccurrence(qs, r[i].0) < FirstOccurrence(qs, r[j].0))
      && (forall q :: q in qs && (forall i :: 0 <= i < |r| ==> r[i].0 != q) ==>
            |r| == n && forall i :: 0 <= i < |r| ==> multiset(qs)[q] <= r[i].1)
  {
    MostCommonChosen(qs, n);
    MostCommonTies(qs, n);
    MostCommonOmitted(qs, n);
  }
}
