/**
 * Drop-statistics enrichment of StageDrops reports (organize_stage_drop).
 *
 * The item collaborator is modelled by two values: the drop accumulator
 * `acc` (item id to cumulative quantity, passed in and returned, since the
 * source mutates it in place) and the item-name table `names`.
 */
module DropStatistics {
  import opened Wrappers

  /** Label written for an item whose name lookup comes back empty ("unknown material"). */
  const UnknownMaterial: string := "未知材料"

  /** One entry of the report's "drops" array; `itemName` is absent until enrichment. */
  datatype Drop = Drop(itemId: string, quantity: int, itemName: Option<string>)

  /** One entry of the derived "statistics" array. */
  datatype StatEntry = StatEntry(itemId: string, itemName: string, count: int)

  /**
   * A drop report: every other field of the JSON document (kept as-is),
   * the "drops" array, and the "statistics" array once one is attached.
   */
  datatype DropReport = DropReport(fields: map<string, string>, drops: seq<Drop>, statistics: Option<seq<StatEntry>>)

  /** Accumulated count of an item; an item never seen counts zero. */
  function CountOf(acc: map<string, int>, id: string): int {
    if id in acc then acc[id] else 0
  }

  /** The item table's name lookup: the empty string when the id is not mapped. */
  function LookupName(names: map<string, string>, id: string): string {
    if id in names then names[id] else ""
  }

  /** The name written into a drop or a statistics entry. */
  function DisplayName(names: map<string, string>, id: string): string {
    var n := LookupName(names, id);
    if n == "" then UnknownMaterial else n
  }

  /** The accumulator after `increase_drop_count(d.itemId, d.quantity)`. */
  function AddDrop(acc: map<string, int>, d: Drop): map<string, int> {
    acc[d.itemId := CountOf(acc, d.itemId) + d.quantity]
  }

  /** The accumulator after every drop of `drops`, in order. */
  function Accumulate(acc: map<string, int>, drops: seq<Drop>): map<string, int>
    decreases |drops|
  {
    if drops == [] then acc
    else AddDrop(Accumulate(acc, drops[..|drops| - 1]), drops[|drops| - 1])
  }

  /** Reference definition: the total quantity reported for `id` in `drops`. */
  function QuantityOf(drops: seq<Drop>, id: string): int {
    if drops == [] then 0
    else (if drops[0].itemId == id then drops[0].quantity else 0) + QuantityOf(drops[1..], id)
  }

  /** Whether some drop of `drops` carries item `id`. */
  predicate Mentions(drops: seq<Drop>, id: string) {
    exists i :: 0 <= i < |drops| && drops[i].itemId == id
  }

  /** A drop with its name label written in. */
  function Labeled(names: map<string, string>, d: Drop): Drop {
    d.(itemName := Some(DisplayName(names, d.itemId)))
  }

  function LabelDrops(names: map<string, string>, drops: seq<Drop>): seq<Drop> {
    seq(|drops|, i requires 0 <= i < |drops| => Labeled(names, drops[i]))
  }

  /** The statistics entry of an accumulated item. */
  function StatOf(acc: map<string, int>, names: map<string, string>, id: string): StatEntry
    requires id in acc
  {
    StatEntry(id, DisplayName(names, id), acc[id])
  }

  /** The statistics entries the accumulator calls for: one per accumulated id. */
  ghost function Expected(acc: map<string, int>, names: map<string, string>): set<StatEntry> {
    set id | id in acc :: StatOf(acc, names, id)
  }

  /** Non-increasing count: larger counts first. */
  predicate SortedByCount(s: seq<StatEntry>) {
    forall p, q :: 0 <= p < q < |s| ==> s[p].count >= s[q].count
  }

  /**
   * `s` is a statistics array for `acc`: exactly the expected entries, in
   * some order of non-increasing count (the sort is not stable and the
   * accumulator's iteration order is unspecified, so ties are unordered).
   */
  ghost predicate IsStatistics(s: seq<StatEntry>, acc: map<string, int>, names: map<string, string>) {
    multiset(s) == multiset(Expected(acc, names)) && SortedByCount(s)
  }

  /** `dst` is `rec` enriched against the accumulator `acc` as it was before the report. */
  ghost predicate IsOrganized(rec: DropReport, dst: DropReport, acc: map<string, int>, names: map<string, string>) {
    && dst.fields == rec.fields
    && dst.drops == LabelDrops(names, rec.drops)
    && dst.statistics.Some?
    && IsStatistics(dst.statistics.value, Accumulate(acc, rec.drops), names)
  }

  lemma {:induction false} QuantityOfSnoc(drops: seq<Drop>, d: Drop, id: string)
    ensures QuantityOf(drops + [d], id) == QuantityOf(drops, id) + (if d.itemId == id then d.quantity else 0)
    decreases |drops|
  {
    if drops == [] {
      assert [d][1..] == [];
    } else {
      assert (drops + [d])[1..] == drops[1..] + [d];
      QuantityOfSnoc(drops[1..], d, id);
    }
  }

  /**
   * Each drop raises its id's accumulated count by its quantity: the count
   * of `id` grows by the sum of its quantities over the report, and the
   * accumulator gains exactly the ids the report mentions.
   */
  lemma {:induction false} AccumulateCounts(acc: map<string, int>, drops: seq<Drop>, id: string)
    ensures CountOf(Accumulate(acc, drops), id) == CountOf(acc, id) + QuantityOf(drops, id)
    ensures id in Accumulate(acc, drops) <==> id in acc || Mentions(drops, id)
    decreases |drops|
  {
    if drops != [] {
      var init, last := drops[..|drops| - 1], drops[|drops| - 1];
      assert drops == init + [last];
      AccumulateCounts(acc, init, id);
      QuantityOfSnoc(init, last, id);
      if Mentions(drops, id) && !Mentions(init, id) {
        var i :| 0 <= i < |drops| && drops[i].itemId == id;
        assert i == |drops| - 1;
      }
      if Mentions(init, id) {
        var i :| 0 <= i < |init| && init[i].itemId == id;
        assert drops[i].itemId == id;
      }
    }
  }

  /** Processing two reports in turn accumulates like one report with both drop lists. */
  lemma {:induction false} AccumulateConcat(acc: map<string, int>, d1: seq<Drop>, d2: seq<Drop>)
    ensures Accumulate(acc, d1 + d2) == Accumulate(Accumulate(acc, d1), d2)
    decreases |d2|
  {
    if d2 == [] {
      assert d1 + d2 == d1;
    } else {
      var init, last := d2[..|d2| - 1], d2[|d2| - 1];
      assert (d1 + d2)[..|d1 + d2| - 1] == d1 + init;
      assert (d1 + d2)[|d1 + d2| - 1] == last;
      AccumulateConcat(acc, d1, init);
    }
  }

  /** Counts persist across reports: the same report processed twice doubles its contribution. */
  lemma {:induction false} RepeatedReportAccumulates(acc: map<string, int>, drops: seq<Drop>, id: string)
    ensures CountOf(Accumulate(Accumulate(acc, drops), drops), id) == CountOf(acc, id) + 2 * QuantityOf(drops, id)
  {
    AccumulateCounts(acc, drops, id);
    AccumulateCounts(Accumulate(acc, drops), drops, id);
  }

  lemma {:induction false} TwoOccurrences(s: seq<StatEntry>, i: int, j: int)
    requires 0 <= i < j < |s| && s[i] == s[j]
    ensures multiset(s)[s[i]] >= 2
  {
    assert s == s[..j] + s[j..];
    assert s[i] in s[..j];
    assert s[j] == s[j..][0];
    assert multiset(s) == multiset(s[..j]) + multiset(s[j..]);
  }

  /**
   * A statistics array holds exactly one entry per accumulated id, each
   * carrying that id's accumulated count and its display name.
   */
  lemma {:induction false} StatisticsOnePerId(s: seq<StatEntry>, acc: map<string, int>, names: map<string, string>)
    requires multiset(s) == multiset(Expected(acc, names))
    ensures forall i :: 0 <= i < |s| ==> s[i].itemId in acc && s[i] == StatOf(acc, names, s[i].itemId)
    ensures forall id :: id in acc ==> exists i :: 0 <= i < |s| && s[i].itemId == id
    ensures forall i, j :: 0 <= i < j < |s| ==> s[i].itemId != s[j].itemId
  {
    forall i | 0 <= i < |s|
      ensures s[i].itemId in acc && s[i] == StatOf(acc, names, s[i].itemId)
    {
      assert s[i] in multiset(s);
      assert s[i] in Expected(acc, names);
    }
    forall id | id in acc
      ensures exists i :: 0 <= i < |s| && s[i].itemId == id
    {
      var e := StatOf(acc, names, id);
      assert e in Expected(acc, names);
      assert e in multiset(s);
      var i :| 0 <= i < |s| && s[i] == e;
    }
    forall i, j | 0 <= i < j < |s|
      ensures s[i].itemId != s[j].itemId
    {
      if s[i].itemId == s[j].itemId {
        TwoOccurrences(s, i, j);
      }
    }
  }

  /** The entry for a fresh id extends the expected set built so far. */
  lemma ExpectedStep(acc: map<string, int>, names: map<string, string>, seen: set<string>, id: string)
    requires seen <= acc.Keys && id in acc && id !in seen
    ensures multiset(set k | k in seen + {id} :: StatOf(acc, names, k))
         == multiset(set k | k in seen :: StatOf(acc, names, k)) + multiset{StatOf(acc, names, id)}
  {
    var before := set k | k in seen :: StatOf(acc, names, k);
    var after := set k | k in seen + {id} :: StatOf(acc, names, k);
    assert after == before + {StatOf(acc, names, id)};
    assert StatOf(acc, names, id) !in before;
  }

  /** Exchanges two entries of `a`. */
  method Swap(a: array<StatEntry>, i: int, j: int)
    requires 0 <= i < a.Length && 0 <= j < a.Length
    modifies a
    ensures a[..] == old(a[..])[i := old(a[j])][j := old(a[i])]
    ensures multiset(a[..]) == multiset(old(a[..]))
  {
    a[i], a[j] := a[j], a[i];
  }

  /**
   * One pass of the sort: moves `a[i]` left past every smaller count, so
   * that the prefix `a[..i + 1]` is sorted.
   */
  method InsertDown(a: array<StatEntry>, i: int)
    requires 0 <= i < a.Length && SortedByCount(a[..i])
    modifies a
    ensures SortedByCount(a[..i + 1])
    ensures multiset(a[..]) == multiset(old(a[..]))
  {
    var j := i;
    while j > 0 && a[j - 1].count < a[j].count
      invariant 0 <= j <= i
      invariant forall p, q :: 0 <= p < q <= i && p != j && q != j ==> a[p].count >= a[q].count
      invariant forall q :: j < q <= i ==> a[j].count >= a[q].count
      invariant 0 < j < i ==> a[j - 1].count >= a[j + 1].count
      invariant multiset(a[..]) == multiset(old(a[..]))
    {
      Swap(a, j - 1, j);
      j := j - 1;
    }
  }

  /** Sorts the statistics in place, larger counts first (the std::sort call). */
  method SortByCount(a: array<StatEntry>)
    modifies a
    ensures SortedByCount(a[..])
    ensures multiset(a[..]) == multiset(old(a[..]))
  {
    var i := 0;
    while i < a.Length
      invariant 0 <= i <= a.Length
      invariant SortedByCount(a[..i])
      invariant multiset(a[..]) == multiset(old(a[..]))
    {
      InsertDown(a, i);
      i := i + 1;
    }
    assert a[..i] == a[..];
  }

  /**
   * The loop over the report's drops: each drop's quantity goes into the
   * accumulator and its name label is written in.
   */
  method LabelAndCount(drops: seq<Drop>, acc: map<string, int>, names: map<string, string>)
    returns (labeled: seq<Drop>, acc': map<string, int>)
    ensures acc' == Accumulate(acc, drops)
    ensures labeled == LabelDrops(names, drops)
  {
    labeled := drops;
    acc' := acc;
    var i := 0;
    while i < |labeled|
      invariant 0 <= i <= |labeled| == |drops|
      invariant acc' == Accumulate(acc, drops[..i])
      invariant forall k :: 0 <= k < i ==> labeled[k] == Labeled(names, drops[k])
      invariant forall k :: i <= k < |labeled| ==> labeled[k] == drops[k]
    {
      var d := labeled[i];
      assert drops[..i + 1][..i] == drops[..i];
      acc' := AddDrop(acc', d);
      labeled := labeled[i := Labeled(names, d)];
      i := i + 1;
    }
    assert drops[..i] == drops;
  }

  /** The loop over the accumulator: one statistics entry per id, in the map's iteration order. */
  method CollectStatistics(acc: map<string, int>, names: map<string, string>) returns (stats: seq<StatEntry>)
    ensures multiset(stats) == multiset(Expected(acc, names))
  {
    stats := [];
    var remaining := acc.Keys;
    ghost var seen: set<string> := {};
    while remaining != {}
      invariant remaining <= acc.Keys && seen == acc.Keys - remaining
      invariant multiset(stats) == multiset(set k | k in seen :: StatOf(acc, names, k))
      decreases |remaining|
    {
      var id :| id in remaining;
      ExpectedStep(acc, names, seen, id);
      stats := stats + [StatOf(acc, names, id)];
      remaining := remaining - {id};
      seen := seen + {id};
    }
    assert seen == acc.Keys;
  }

  /**
   * organize_stage_drop: adds every drop to the accumulator and labels it
   * with its name, then attaches one statistics entry per accumulated id,
   * larger counts first. Returns the enriched report and the new accumulator.
   */
  method OrganizeStageDrop(rec: DropReport, acc: map<string, int>, names: map<string, string>)
    returns (dst: DropReport, acc': map<string, int>)
    ensures acc' == Accumulate(acc, rec.drops)
    ensures IsOrganized(rec, dst, acc, names)
  {
    var drops;
    drops, acc' := LabelAndCount(rec.drops, acc, names);
    var stats := CollectStatistics(acc', names);
    var a := new StatEntry[|stats|](k requires 0 <= k < |stats| => stats[k]);
    assert a[..] == stats;
    SortByCount(a);
    dst := rec.(drops := drops, statistics := Some(a[..]));
  }

  /** The worked report's drops: item 30011 x3, then item 30012 x1. */
  const ExampleDrops: seq<Drop> := [Drop("30011", 3, None), Drop("30012", 1, None)]

  /** From an empty accumulator, the worked report gives counts {30011: 3, 30012: 1}. */
  lemma ExampleCounts()
    ensures Accumulate(map[], ExampleDrops) == map["30011" := 3, "30012" := 1]
  {
    assert ExampleDrops[..1] == [Drop("30011", 3, None)];
    assert [Drop("30011", 3, None)][..0] == [];
  }

  /** Any statistics array for the worked report lists 30011 (count 3) before 30012 (count 1). */
  lemma {:induction false} ExampleReport(names: map<string, string>, s: seq<StatEntry>)
    requires IsStatistics(s, Accumulate(map[], ExampleDrops), names)
    ensures s == [StatEntry("30011", DisplayName(names, "30011"), 3), StatEntry("30012", DisplayName(names, "30012"), 1)]
  {
    ExampleCounts();
    var acc := map["30011" := 3, "30012" := 1];
    var e1 := StatEntry("30011", DisplayName(names, "30011"), 3);
    var e2 := StatEntry("30012", DisplayName(names, "30012"), 1);
    assert acc.Keys == {"30011", "30012"};
    assert Expected(acc, names) == {e1, e2} by {
      assert StatOf(acc, names, "30011") == e1;
      assert StatOf(acc, names, "30012") == e2;
    }
    assert e1 != e2;
    assert multiset(s) == multiset{e1, e2};
    assert s[0] in multiset(s) && s[1] in multiset(s);
  }
}
