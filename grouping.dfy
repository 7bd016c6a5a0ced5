/** Enumerable.GroupBy followed by a per-group Sum, and a stable
    OrderByDescending on the sums, over time entries. A grouping is given by a
    key function and a weight function (whole minutes, ticks). The keys come in
    order of first appearance, as GroupBy yields them. */
module Grouping {
  import opened Common

  predicate Distinct<K(==)>(s: seq<K>)
  {
    forall i, j :: 0 <= i < j < |s| ==> s[i] != s[j]
  }

  /** The group keys in order of first appearance. */
  function GroupKeys<K(==)>(entries: seq<TimeEntry>, key: TimeEntry -> K): (r: seq<K>)
    ensures Distinct(r)
    ensures entries != [] ==> r != []
  {
    if entries == [] then []
    else
      var prev := GroupKeys(entries[..|entries| - 1], key);
      var last := key(entries[|entries| - 1]);
      if last in prev then prev else prev + [last]
  }

  /** Every entry's key is a group key, and every group key is some entry's key. */
  lemma {:induction false} GroupKeysCover<K>(entries: seq<TimeEntry>, key: TimeEntry -> K)
    ensures forall i :: 0 <= i < |entries| ==> key(entries[i]) in GroupKeys(entries, key)
    ensures forall k :: k in GroupKeys(entries, key) ==> exists i :: 0 <= i < |entries| && key(entries[i]) == k
  {
    if entries != [] {
      var p := entries[..|entries| - 1];
      GroupKeysCover(p, key);
      assert forall i :: 0 <= i < |p| ==> p[i] == entries[i];
    }
  }

  /** The sum of the weights of the entries whose key is k. */
  function GroupSum<K(==)>(entries: seq<TimeEntry>, key: TimeEntry -> K, weight: TimeEntry -> int, k: K): int
  {
    if entries == [] then 0
    else
      GroupSum(entries[..|entries| - 1], key, weight, k) +
      (if key(entries[|entries| - 1]) == k then weight(entries[|entries| - 1]) else 0)
  }

  /** A dictionary from each group key to its group's sum. */
  ghost predicate Tallies<K(!new)>(totals: map<K, int>, entries: seq<TimeEntry>, key: TimeEntry -> K, weight: TimeEntry -> int)
  {
    (forall k :: k in totals <==> k in GroupKeys(entries, key)) &&
    (forall k :: k in totals ==> totals[k] == GroupSum(entries, key, weight, k))
  }

  /** Adding w under k, creating the total on first use. */
  function AddTo<K(!new)>(totals: map<K, int>, k: K, w: int): (r: map<K, int>)
    ensures k in r && r[k] == (if k in totals then totals[k] else 0) + w
    ensures forall j :: j != k ==> (j in r <==> j in totals)
    ensures forall j :: j != k && j in totals ==> r[j] == totals[j]
  {
    if k in totals then totals[k := totals[k] + w] else totals[k := w]
  }

  /** One more entry adds its weight under its key. */
  lemma {:induction false} TalliesStep<K(!new)>(totals: map<K, int>, entries: seq<TimeEntry>, key: TimeEntry -> K,
                                          weight: TimeEntry -> int, e: TimeEntry)
    requires Tallies(totals, entries, key, weight)
    ensures Tallies(AddTo(totals, key(e), weight(e)), entries + [e], key, weight)
  {
    var l := entries + [e];
    assert l[..|entries|] == entries;
    if key(e) !in totals {
      GroupKeysCover(entries, key);
      GroupSumAbsent(entries, key, weight, key(e));
    }
  }

  /** The sum of the weights of all entries. */
  function Total(entries: seq<TimeEntry>, weight: TimeEntry -> int): int
  {
    if entries == [] then 0 else Total(entries[..|entries| - 1], weight) + weight(entries[|entries| - 1])
  }

  datatype Group<K> = Group(key: K, total: int)

  /** One group per key, with its sum. */
  function Tally<K(==)>(keys: seq<K>, entries: seq<TimeEntry>, key: TimeEntry -> K, weight: TimeEntry -> int): (r: seq<Group<K>>)
    ensures |r| == |keys|
    ensures forall i :: 0 <= i < |r| ==> r[i] == Group(keys[i], GroupSum(entries, key, weight, keys[i]))
  {
    if keys == [] then []
    else [Group(keys[0], GroupSum(entries, key, weight, keys[0]))] + Tally(keys[1..], entries, key, weight)
  }

  /** GroupBy(key).Select(g => (g.Key, g.Sum(weight))). */
  function GroupBy<K(==)>(entries: seq<TimeEntry>, key: TimeEntry -> K, weight: TimeEntry -> int): seq<Group<K>>
  {
    Tally(GroupKeys(entries, key), entries, key, weight)
  }

  function SumTotals<K>(gs: seq<Group<K>>): int
  {
    if gs == [] then 0 else gs[0].total + SumTotals(gs[1..])
  }

  lemma {:induction false} SumTotalsAppend<K>(a: seq<Group<K>>, b: seq<Group<K>>)
    ensures SumTotals(a + b) == SumTotals(a) + SumTotals(b)
  {
    if a != [] {
      assert (a + b)[1..] == a[1..] + b;
      SumTotalsAppend(a[1..], b);
    } else {
      assert a + b == b;
    }
  }

  /** A key no entry carries has an empty group. */
  lemma {:induction false} GroupSumAbsent<K>(entries: seq<TimeEntry>, key: TimeEntry -> K, weight: TimeEntry -> int, k: K)
    requires forall i :: 0 <= i < |entries| ==> key(entries[i]) != k
    ensures GroupSum(entries, key, weight, k) == 0
  {
    if entries != [] {
      var p := entries[..|entries| - 1];
      assert forall i :: 0 <= i < |p| ==> p[i] == entries[i];
      GroupSumAbsent(p, key, weight, k);
    }
  }

  /** Adding one entry adds its weight to the group of its key, if listed. */
  lemma {:induction false} TallyStep<K>(keys: seq<K>, entries: seq<TimeEntry>, e: TimeEntry,
                                            key: TimeEntry -> K, weight: TimeEntry -> int)
    requires Distinct(keys)
    ensures SumTotals(Tally(keys, entries + [e], key, weight)) ==
      SumTotals(Tally(keys, entries, key, weight)) + (if key(e) in keys then weight(e) else 0)
  {
    if keys != [] {
      assert (entries + [e])[..|entries + [e]| - 1] == entries;
      assert key(e) in keys <==> key(e) == keys[0] || key(e) in keys[1..];
      TallyStep(keys[1..], entries, e, key, weight);
    }
  }

  lemma {:induction false} TallyAppend<K>(keys: seq<K>, k: K, entries: seq<TimeEntry>,
                                              key: TimeEntry -> K, weight: TimeEntry -> int)
    ensures Tally(keys + [k], entries, key, weight) ==
      Tally(keys, entries, key, weight) + [Group(k, GroupSum(entries, key, weight, k))]
  {
  }

  /** The groups partition the entries: the group sums add up to the total weight,
      so every entry is counted exactly once. */
  lemma {:induction false} PartitionTotal<K>(entries: seq<TimeEntry>, key: TimeEntry -> K, weight: TimeEntry -> int)
    ensures SumTotals(GroupBy(entries, key, weight)) == Total(entries, weight)
  {
    if entries != [] {
      var p := entries[..|entries| - 1];
      var e := entries[|entries| - 1];
      assert entries == p + [e];
      PartitionTotal(p, key, weight);
      GroupKeysCover(p, key);
      var ks := GroupKeys(p, key);
      TallyStep(ks, p, e, key, weight);
      if key(e) !in ks {
        assert GroupKeys(entries, key) == ks + [key(e)];
        TallyAppend(ks, key(e), entries, key, weight);
        SumTotalsAppend(Tally(ks, entries, key, weight), [Group(key(e), GroupSum(entries, key, weight, key(e)))]);
        GroupSumAbsent(p, key, weight, key(e));
        assert GroupSum(entries, key, weight, key(e)) == weight(e);
      }
    }
  }

  // ---------------------------------------------------------------------------
  // OrderByDescending(total): a stable sort, as LINQ's is.

  predicate Descending<K>(gs: seq<Group<K>>)
  {
    forall i, j :: 0 <= i < j < |gs| ==> gs[i].total >= gs[j].total
  }

  /** Places g before the first group whose total is not larger than g's. */
  function InsertDescending<K>(g: Group<K>, gs: seq<Group<K>>): (r: seq<Group<K>>)
    requires Descending(gs)
    ensures Descending(r)
    ensures |r| == |gs| + 1
    ensures r[0] == if gs == [] || g.total >= gs[0].total then g else gs[0]
  {
    if gs == [] || g.total >= gs[0].total then [g] + gs
    else [gs[0]] + InsertDescending(g, gs[1..])
  }

  /** OrderByDescending(g => g.total). */
  function SortDescending<K>(gs: seq<Group<K>>): (r: seq<Group<K>>)
    ensures Descending(r)
    ensures |r| == |gs|
  {
    if gs == [] then [] else InsertDescending(gs[0], SortDescending(gs[1..]))
  }

  lemma {:induction false} InsertPermutes<K>(g: Group<K>, gs: seq<Group<K>>)
    requires Descending(gs)
    ensures multiset(InsertDescending(g, gs)) == multiset(gs) + multiset{g}
  {
    if gs != [] && g.total < gs[0].total {
      assert gs == [gs[0]] + gs[1..];
      InsertPermutes(g, gs[1..]);
    }
  }

  /** The ordering is a permutation of the groups. */
  lemma {:induction false} SortPermutes<K>(gs: seq<Group<K>>)
    ensures multiset(SortDescending(gs)) == multiset(gs)
  {
    if gs != [] {
      assert gs == [gs[0]] + gs[1..];
      SortPermutes(gs[1..]);
      InsertPermutes(gs[0], SortDescending(gs[1..]));
    }
  }

  lemma {:induction false} InsertKeepsSum<K>(g: Group<K>, gs: seq<Group<K>>)
    requires Descending(gs)
    ensures SumTotals(InsertDescending(g, gs)) == g.total + SumTotals(gs)
  {
    if gs != [] && g.total < gs[0].total {
      InsertKeepsSum(g, gs[1..]);
      assert ([gs[0]] + InsertDescending(g, gs[1..]))[1..] == InsertDescending(g, gs[1..]);
    }
  }

  /** Ordering the groups does not change their sum. */
  lemma {:induction false} SortKeepsSum<K>(gs: seq<Group<K>>)
    ensures SumTotals(SortDescending(gs)) == SumTotals(gs)
  {
    if gs != [] {
      SortKeepsSum(gs[1..]);
      InsertKeepsSum(gs[0], SortDescending(gs[1..]));
    }
  }

  /** The index of the first group with the largest total. */
  function FirstMax<K>(gs: seq<Group<K>>): (i: nat)
    requires gs != []
    ensures i < |gs|
    ensures forall j :: 0 <= j < |gs| ==> gs[j].total <= gs[i].total
    ensures forall j :: 0 <= j < i ==> gs[j].total < gs[i].total
  {
    if |gs| == 1 then 0
    else
      var k := FirstMax(gs[1..]);
      if gs[0].total >= gs[k + 1].total then 0 else k + 1
  }

  /** Because the ordering is stable, FirstOrDefault after it yields the earliest
      group with the largest total. */
  lemma {:induction false} SortedHeadIsFirstMax<K>(gs: seq<Group<K>>)
    requires gs != []
    ensures SortDescending(gs)[0] == gs[FirstMax(gs)]
  {
    if |gs| > 1 {
      var t := SortDescending(gs[1..]);
      SortedHeadIsFirstMax(gs[1..]);
      assert t[0] == gs[1..][FirstMax(gs[1..])];
    }
  }

  /** The first group of the ordering has the largest sum of any entry's
      group, and it is the earliest such group. */
  lemma HeadIsLargestGroup<K>(entries: seq<TimeEntry>, key: TimeEntry -> K, weight: TimeEntry -> int)
    requires entries != []
    ensures var gs := GroupBy(entries, key, weight);
      gs != [] && SortDescending(gs)[0] == gs[FirstMax(gs)] &&
      forall i :: 0 <= i < |entries| ==> GroupSum(entries, key, weight, key(entries[i])) <= gs[FirstMax(gs)].total
  {
    var gs := GroupBy(entries, key, weight);
    var keys := GroupKeys(entries, key);
    GroupKeysCover(entries, key);
    SortedHeadIsFirstMax(gs);
    forall i | 0 <= i < |entries|
      ensures GroupSum(entries, key, weight, key(entries[i])) <= gs[FirstMax(gs)].total
    {
      var j :| 0 <= j < |keys| && keys[j] == key(entries[i]);
      assert gs[j].total == GroupSum(entries, key, weight, key(entries[i]));
    }
  }
}
