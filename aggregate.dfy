/**
 * The aggregation step of `HandleWFS` (lib/wfs.go): with more than one layer
 * configured, the merged entries are sorted newest first and cut to the
 * configured maximum; with one layer they pass through untouched.
 */
module Aggregation {
  import opened Feeds
  import opened Features
  import opened Params

  /** The cap used when `MAXFEATURES` is missing or not an integer. */
  const DefaultMaxFeatures: int := 20

  /** Non-increasing update times: the order `sort.Slice` is asked for. */
  predicate NewestFirst(s: seq<FeedProperties>)
  {
    forall i, j :: 0 <= i < j < |s| ==> s[j].updatedAt <= s[i].updatedAt
  }

  /** An entry at least as new as the head of a newest-first list can go in front of it. */
  lemma ConsNewestFirst(y: FeedProperties, t: seq<FeedProperties>)
    requires NewestFirst(t)
    requires |t| > 0 ==> t[0].updatedAt <= y.updatedAt
    ensures NewestFirst([y] + t)
  {
    var r := [y] + t;
    forall i, j | 0 <= i < j < |r| ensures r[j].updatedAt <= r[i].updatedAt {
      if i == 0 {
        assert r[j] == t[j - 1];
      } else {
        assert r[i] == t[i - 1] && r[j] == t[j - 1];
      }
    }
  }

  /** Put `x` in front of the first entry that is not newer than it. */
  function Insert(x: FeedProperties, s: seq<FeedProperties>): (r: seq<FeedProperties>)
    requires NewestFirst(s)
    ensures NewestFirst(r)
    ensures multiset(r) == multiset(s) + multiset{x}
    ensures |r| == |s| + 1 && (r[0] == x || (|s| > 0 && r[0] == s[0]))
  {
    if |s| == 0 then [x]
    else if s[0].updatedAt <= x.updatedAt then
      ConsNewestFirst(x, s);
      [x] + s
    else
      var rest := Insert(x, s[1..]);
      assert rest[0].updatedAt <= s[0].updatedAt by {
        if rest[0] != x {
          assert rest[0] == s[1];
        }
      }
      ConsNewestFirst(s[0], rest);
      assert s == [s[0]] + s[1..];
      [s[0]] + rest
  }

  /**
   * The sort `sort.Slice` performs with "j's time is before i's". This
   * insertion sort keeps ties in input order; `sort.Slice` promises no tie
   * order, so the contracts below only rely on the order and the contents.
   */
  function SortNewestFirst(s: seq<FeedProperties>): (r: seq<FeedProperties>)
    ensures NewestFirst(r)
    ensures multiset(r) == multiset(s)
    ensures |r| == |s|
  {
    if |s| == 0 then []
    else
      assert s == [s[0]] + s[1..];
      Insert(s[0], SortNewestFirst(s[1..]))
  }

  /** The cap: `Params["MAXFEATURES"]` when it is an integer, 20 otherwise. */
  function MaxFeatures(params: map<string, Param>): (cap: int)
    ensures ("MAXFEATURES" in params && params["MAXFEATURES"].Single? && params["MAXFEATURES"].value.Int?)
      ==> cap == params["MAXFEATURES"].value.n
    ensures !("MAXFEATURES" in params && params["MAXFEATURES"].Single? && params["MAXFEATURES"].value.Int?)
      ==> cap == DefaultMaxFeatures
  {
    if "MAXFEATURES" in params && params["MAXFEATURES"].Single? && params["MAXFEATURES"].value.Int?
    then params["MAXFEATURES"].value.n
    else DefaultMaxFeatures
  }

  /** Cutting a newest-first list keeps a sub-multiset, and nothing cut off is newer than anything kept. */
  lemma {:induction false} PrefixKeepsNewest(s: seq<FeedProperties>, k: nat)
    requires NewestFirst(s)
    requires k <= |s|
    ensures multiset(s[..k]) <= multiset(s)
    ensures forall x, y :: x in multiset(s) - multiset(s[..k]) && y in s[..k] ==> x.updatedAt <= y.updatedAt
  {
    assert s == s[..k] + s[k..];
    assert multiset(s) == multiset(s[..k]) + multiset(s[k..]);
    forall x, y | x in multiset(s) - multiset(s[..k]) && y in s[..k]
      ensures x.updatedAt <= y.updatedAt
    {
      assert x in multiset(s[k..]);
      var j :| 0 <= j < |s[k..]| && s[k..][j] == x;
      var i :| 0 <= i < |s[..k]| && s[..k][i] == y;
      assert s[i] == y && s[k + j] == x;
    }
  }

  /**
   * The list `HandleWFS` renders, given the merged entries, the number of
   * configured layers and the cap. With several layers: newest first, as long
   * as the cap allows, and a sub-multiset of the input; `AggregateDropsOnlyOlder`
   * adds that nothing dropped is newer than anything kept. With one layer (or
   * none): the input itself, whatever its length. A negative cap makes Go's
   * reslicing panic, hence the precondition.
   */
  function Aggregate(items: seq<FeedProperties>, layerCount: nat, cap: int): (r: seq<FeedProperties>)
    requires layerCount > 1 ==> cap >= 0
    ensures layerCount <= 1 ==> r == items
    ensures layerCount > 1 ==> NewestFirst(r)
    ensures layerCount > 1 ==> |r| == (if |items| > cap then cap else |items|)
    ensures layerCount > 1 ==> multiset(r) <= multiset(items)
  {
    if layerCount <= 1 then items
    else
      var sorted := SortNewestFirst(items);
      if |sorted| > cap then
        assert sorted == sorted[..cap] + sorted[cap..];
        sorted[..cap]
      else sorted
  }

  /** The cap only ever drops the oldest entries: nothing dropped is newer than anything kept. */
  lemma AggregateDropsOnlyOlder(items: seq<FeedProperties>, layerCount: nat, cap: int)
    requires layerCount > 1 && cap >= 0
    ensures var r := Aggregate(items, layerCount, cap);
      forall x, y :: x in multiset(items) - multiset(r) && y in r ==> x.updatedAt <= y.updatedAt
  {
    var sorted := SortNewestFirst(items);
    var kept: nat := if |sorted| > cap then cap else |sorted|;
    PrefixKeepsNewest(sorted, kept);
    assert Aggregate(items, layerCount, cap) == sorted[..kept];
  }

  /**
   * What every outcome of the sort/cap satisfies, whatever order `sort.Slice`
   * leaves ties in: with one layer or none, the entries unchanged; with
   * several, newest first, min(length, cap) entries, a sub-multiset of the
   * input, and nothing dropped newer than anything kept.
   */
  predicate Aggregated(items: seq<FeedProperties>, layerCount: nat, cap: int, r: seq<FeedProperties>)
  {
    if layerCount <= 1 then r == items
    else
      NewestFirst(r) &&
      |r| == (if |items| > cap then cap else |items|) &&
      multiset(r) <= multiset(items) &&
      forall x, y :: x in multiset(items) - multiset(r) && y in r ==> x.updatedAt <= y.updatedAt
  }

  /** The stable sort and cut is one of the outcomes `Aggregated` allows. */
  lemma AggregateIsAggregated(items: seq<FeedProperties>, layerCount: nat, cap: int)
    requires layerCount > 1 ==> cap >= 0
    ensures Aggregated(items, layerCount, cap, Aggregate(items, layerCount, cap))
  {
    if layerCount > 1 {
      AggregateDropsOnlyOlder(items, layerCount, cap);
    }
  }

  /** In a newest-first list, an entry with the zero time is followed only by zero-time entries. */
  lemma UnknownTimesSortLast(s: seq<FeedProperties>, i: nat, j: nat)
    requires NewestFirst(s)
    requires i < j < |s|
    requires s[i].updatedAt == ZeroTime
    ensures s[j].updatedAt == ZeroTime
  {
  }

  /** An entry from 2020 goes behind entries from 2022 and 2021. */
  lemma InsertExample(a: FeedProperties, b: FeedProperties, c: FeedProperties)
    requires a.updatedAt == 2020 && b.updatedAt == 2022 && c.updatedAt == 2021
    ensures Insert(a, [b, c]) == [b, c, a]
  {
    assert [c][1..] == [];
    assert Insert(a, []) == [a];
    assert Insert(a, [c]) == [c, a];
    assert [b, c][1..] == [c];
  }

  /** Sorting entries from 2020, 2022 and 2021 gives 2022, 2021, 2020. */
  lemma SortExample(a: FeedProperties, b: FeedProperties, c: FeedProperties)
    requires a.updatedAt == 2020 && b.updatedAt == 2022 && c.updatedAt == 2021
    ensures SortNewestFirst([a, b, c]) == [b, c, a]
  {
    assert [c][1..] == [];
    assert SortNewestFirst([c]) == [c];
    assert [b, c][1..] == [c];
    assert SortNewestFirst([b, c]) == [b, c];
    InsertExample(a, b, c);
    assert [a, b, c][1..] == [b, c];
  }

  /** Two layers with times {2020} and {2022, 2021} aggregate to 2022, 2021, 2020. */
  lemma TwoLayerExample(a: FeedProperties, b: FeedProperties, c: FeedProperties)
    requires a.updatedAt == 2020 && b.updatedAt == 2022 && c.updatedAt == 2021
    ensures Aggregate([a] + [b, c], 2, 20) == [b, c, a]
  {
    SortExample(a, b, c);
    assert [a] + [b, c] == [a, b, c];
  }

  /** Entries already newest first (2023, 2022, 2021) sort to themselves. */
  lemma SortedExample(a: FeedProperties, b: FeedProperties, c: FeedProperties)
    requires a.updatedAt == 2023 && b.updatedAt == 2022 && c.updatedAt == 2021
    ensures SortNewestFirst([a, b, c]) == [a, b, c]
  {
    assert [c][1..] == [];
    assert SortNewestFirst([c]) == [c];
    assert [b, c][1..] == [c];
    assert SortNewestFirst([b, c]) == [b, c];
    assert [a, b, c][1..] == [b, c];
  }

  /** Entries the sort leaves in place are simply cut at the cap. */
  lemma SortedCap(items: seq<FeedProperties>, layerCount: nat, cap: int)
    requires layerCount > 1 && 0 <= cap < |items|
    requires SortNewestFirst(items) == items
    ensures Aggregate(items, layerCount, cap) == items[..cap]
  {
  }

  /** Three merged entries from 2023, 2022 and 2021 with a cap of 2 keep 2023 and 2022. */
  lemma CapExample(a: FeedProperties, b: FeedProperties, c: FeedProperties)
    requires a.updatedAt == 2023 && b.updatedAt == 2022 && c.updatedAt == 2021
    ensures Aggregate([a, b, c], 2, 2) == [a, b]
  {
    SortedExample(a, b, c);
    SortedCap([a, b, c], 2, 2);
    assert [a, b, c][..2] == [a, b];
  }
}
