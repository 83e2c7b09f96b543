/**
 * `getTop` of the analytics page (routes/admin.js): the values of a
 * product tally sorted by units sold, highest first, cut to ten.
 */
module Ranking {
  /** One value of `topProductsMap` or `topTodayMap`: the product, its name, units sold and revenue. */
  datatype TopEntry = TopEntry(productId: int, name: string, sold: int, revenue: real)

  /** How many entries `getTop` keeps. */
  const TopCount: nat := 10

  predicate SortedBySold(s: seq<TopEntry>)
  {
    forall i, j :: 0 <= i < j < |s| ==> s[i].sold >= s[j].sold
  }

  /** Places `x` after the leading entries of `t` that sold at least as much, so ties keep their arrival order. */
  function Insert(x: TopEntry, t: seq<TopEntry>): (r: seq<TopEntry>)
    ensures multiset(r) == multiset(t) + multiset{x}
    ensures |r| == |t| + 1
  {
    if t == [] then [x]
    else if t[0].sold >= x.sold then
      assert t == [t[0]] + t[1..];
      [t[0]] + Insert(x, t[1..])
    else [x] + t
  }

  /** Inserting into a sorted list keeps it sorted. */
  lemma {:induction false} InsertSorted(x: TopEntry, t: seq<TopEntry>)
    requires SortedBySold(t)
    ensures SortedBySold(Insert(x, t))
  {
    if t != [] && t[0].sold >= x.sold {
      InsertSorted(x, t[1..]);
      var rest := Insert(x, t[1..]);
      forall i | 0 <= i < |rest|
        ensures rest[i].sold <= t[0].sold
      {
        assert rest[i] in multiset(rest);
        if rest[i] != x {
          assert rest[i] in multiset(t[1..]);
          assert rest[i] in t[1..];
        }
      }
    }
  }

  /**
   * `sort((a, b) => b.sold - a.sold)`: an insertion sort that takes the
   * entries in order, so it is stable like the engine's sort.
   */
  function SortBySold(s: seq<TopEntry>): (r: seq<TopEntry>)
    ensures SortedBySold(r)
    ensures multiset(r) == multiset(s)
    ensures |r| == |s|
  {
    if s == [] then []
    else
      assert s == s[..|s| - 1] + [s[|s| - 1]];
      InsertSorted(s[|s| - 1], SortBySold(s[..|s| - 1]));
      Insert(s[|s| - 1], SortBySold(s[..|s| - 1]))
  }

  /**
   * `getTop(map)`: at most ten entries, drawn from the tally, ordered by
   * `sold` non-increasing, and no entry left out sold more than any kept.
   */
  function GetTop(s: seq<TopEntry>): (r: seq<TopEntry>)
    ensures |r| == if |s| < TopCount then |s| else TopCount
    ensures SortedBySold(r)
    ensures multiset(r) <= multiset(s)
    ensures forall e :: e in multiset(s) - multiset(r) ==> forall i :: 0 <= i < |r| ==> e.sold <= r[i].sold
  {
    var k := if |s| < TopCount then |s| else TopCount;
    var sorted := SortBySold(s);
    CutKeepsLargest(sorted, k, multiset(s));
    sorted[..k]
  }

  /** Cutting a sorted list of entries (whose multiset is `all`) after `k` leaves out none larger than those kept. */
  lemma CutKeepsLargest(sorted: seq<TopEntry>, k: nat, all: multiset<TopEntry>)
    requires SortedBySold(sorted)
    requires multiset(sorted) == all
    requires k <= |sorted|
    ensures SortedBySold(sorted[..k])
    ensures multiset(sorted[..k]) <= all
    ensures forall e :: e in all - multiset(sorted[..k]) ==> forall i :: 0 <= i < k ==> e.sold <= sorted[..k][i].sold
  {
    var r, tail := sorted[..k], sorted[k..];
    assert sorted == r + tail;
    assert all == multiset(r) + multiset(tail);
    forall e | e in all - multiset(r)
      ensures forall i :: 0 <= i < k ==> e.sold <= r[i].sold
    {
      assert e in multiset(tail);
      TailBelowKept(sorted, k, e);
    }
  }

  lemma TailBelowKept(sorted: seq<TopEntry>, k: nat, e: TopEntry)
    requires SortedBySold(sorted)
    requires k <= |sorted|
    requires e in sorted[k..]
    ensures forall i :: 0 <= i < k ==> e.sold <= sorted[..k][i].sold
  {
    var tail := sorted[k..];
    var j :| 0 <= j < |tail| && tail[j] == e;
    assert e == sorted[k + j];
  }

  /** With ten entries or fewer, `getTop` keeps them all. */
  lemma FewEntriesAllKept(s: seq<TopEntry>)
    requires |s| <= TopCount
    ensures multiset(GetTop(s)) == multiset(s)
  {
    var r := GetTop(s);
    assert |multiset(r)| == |multiset(s)|;
    assert multiset(s) - multiset(r) == multiset{} by {
      assert |multiset(s) - multiset(r)| == |multiset(s)| - |multiset(r)|;
    }
  }
}
