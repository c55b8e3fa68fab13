/** Group-by-key folds over an already-fetched list of rows, as the handlers
    write them: a JavaScript object used as a dictionary, updated with
    `acc[key] = (acc[key] || 0) + amount` for each row in turn, read back
    with `Object.entries` / `Object.keys` (insertion order), and in the
    ranked reports sorted by total, largest first, with the stable
    `Array.prototype.sort`. */
module Aggregation {

  /** One row reduced to its grouping key and the amount it contributes. */
  datatype Item = Item(key: string, amount: int)

  /** One entry of the resulting dictionary. */
  datatype Entry = Entry(key: string, total: int)

  predicate Occurs(items: seq<Item>, k: string)
  {
    exists j :: 0 <= j < |items| && items[j].key == k
  }

  predicate Distinct(ks: seq<string>)
  {
    forall i, j :: 0 <= i < j < |ks| ==> ks[i] != ks[j]
  }

  lemma OccursSnoc(items: seq<Item>, k: string)
    requires items != []
    ensures Occurs(items, k) <==>
              Occurs(items[..|items| - 1], k) || items[|items| - 1].key == k
  {
    var p := items[..|items| - 1];
    if Occurs(p, k) {
      var j :| 0 <= j < |p| && p[j].key == k;
      assert items[j].key == k;
    }
  }

  /** The keys of the dictionary after the rows were added one at a time:
      each key once, in the order of its first occurrence. */
  function KeysInOrder(items: seq<Item>): (ks: seq<string>)
    ensures Distinct(ks)
    ensures forall k :: k in ks <==> Occurs(items, k)
  {
    if items == [] then []
    else
      var ks := KeysInOrder(items[..|items| - 1]);
      var k := items[|items| - 1].key;
      OccursSnoc(items, k);
      assert forall k' :: Occurs(items, k') <==> k' in ks || k' == k by {
        forall k' ensures Occurs(items, k') <==> k' in ks || k' == k {
          OccursSnoc(items, k');
        }
      }
      if k in ks then ks else ks + [k]
  }

  /** The sum of the amounts of the rows whose key is `k`. */
  function SumFor(items: seq<Item>, k: string): int
  {
    if items == [] then 0
    else
      var last := items[|items| - 1];
      SumFor(items[..|items| - 1], k) + (if last.key == k then last.amount else 0)
  }

  /** The sum of all the rows' amounts. */
  function Total(items: seq<Item>): int
  {
    if items == [] then 0 else Total(items[..|items| - 1]) + items[|items| - 1].amount
  }

  /** The dictionary read back as its list of entries, in insertion order. */
  function Group(items: seq<Item>): seq<Entry>
  {
    var ks := KeysInOrder(items);
    seq(|ks|, i requires 0 <= i < |ks| => Entry(ks[i], SumFor(items, ks[i])))
  }

  /** A key that no row carries sums to nothing. */
  lemma {:induction false} SumForAbsent(items: seq<Item>, k: string)
    requires !Occurs(items, k)
    ensures SumFor(items, k) == 0
  {
    if items != [] {
      OccursSnoc(items, k);
      SumForAbsent(items[..|items| - 1], k);
    }
  }

  /** The fold written as the handlers write it: a dictionary `acc` updated
      row by row, with the insertion order of its keys kept in `keys`; the
      entries are then read back in that order. */
  method Accumulate(items: seq<Item>) returns (entries: seq<Entry>)
    ensures entries == Group(items)
  {
    var keys: seq<string> := [];
    var acc: map<string, int> := map[];
    for i := 0 to |items|
      invariant keys == KeysInOrder(items[..i])
      invariant forall k :: k in acc <==> k in keys
      invariant forall k :: k in acc ==> acc[k] == SumFor(items[..i], k)
    {
      var key := items[i].key;
      assert items[..i + 1][..i] == items[..i];
      if key in acc {
        acc := acc[key := acc[key] + items[i].amount];
      } else {
        SumForAbsent(items[..i], key);
        acc := acc[key := items[i].amount];
        keys := keys + [key];
      }
    }
    assert items[..|items|] == items;
    entries := seq(|keys|, i requires 0 <= i < |keys| => Entry(keys[i], acc[keys[i]]));
  }

  /** The position of the first row carrying `k`. */
  function FirstIndex(items: seq<Item>, k: string): (j: nat)
    requires Occurs(items, k)
    ensures j < |items| && items[j].key == k
    ensures forall q :: 0 <= q < j ==> items[q].key != k
  {
    OccursSnoc(items, k);
    var p := items[..|items| - 1];
    if Occurs(p, k) then FirstIndex(p, k) else |items| - 1
  }

  /** The keys come out in the order in which they first occur in the rows. */
  lemma {:induction false} KeysInFirstOccurrenceOrder(items: seq<Item>, i: int, j: int)
    requires 0 <= i < j < |KeysInOrder(items)|
    ensures FirstIndex(items, KeysInOrder(items)[i]) < FirstIndex(items, KeysInOrder(items)[j])
  {
    var p := items[..|items| - 1];
    var ks, ks' := KeysInOrder(items), KeysInOrder(p);
    var ki, kj := ks[i], ks[j];
    OccursSnoc(items, ki);
    OccursSnoc(items, kj);
    if j < |ks'| {
      assert ki == ks'[i] && kj == ks'[j];
      KeysInFirstOccurrenceOrder(p, i, j);
    } else {
      assert ki == ks'[i];
      assert FirstIndex(items, ki) == FirstIndex(p, ki) < |p|;
    }
  }

  function SumTotals(es: seq<Entry>): int
  {
    if es == [] then 0 else es[0].total + SumTotals(es[1..])
  }

  /** The entries built from a list of distinct keys, each with its sum. */
  function EntriesFor(ks: seq<string>, items: seq<Item>): seq<Entry>
  {
    seq(|ks|, i requires 0 <= i < |ks| => Entry(ks[i], SumFor(items, ks[i])))
  }

  /** Adding one row to the input adds its amount to the sum over the keys
      exactly when its key is among them. */
  lemma {:induction false} SumTotalsSnoc(ks: seq<string>, items: seq<Item>, x: Item)
    requires Distinct(ks)
    ensures SumTotals(EntriesFor(ks, items + [x])) ==
              SumTotals(EntriesFor(ks, items)) + (if x.key in ks then x.amount else 0)
  {
    if ks != [] {
      assert (items + [x])[..|items|] == items;
      assert EntriesFor(ks, items + [x])[1..] == EntriesFor(ks[1..], items + [x]);
      assert EntriesFor(ks, items)[1..] == EntriesFor(ks[1..], items);
      SumTotalsSnoc(ks[1..], items, x);
      assert x.key in ks <==> x.key == ks[0] || x.key in ks[1..] by {
        assert ks == [ks[0]] + ks[1..];
      }
      if x.key == ks[0] {
        assert x.key !in ks[1..];
      }
    }
  }

  lemma {:induction false} SumTotalsAppend(a: seq<Entry>, b: seq<Entry>)
    ensures SumTotals(a + b) == SumTotals(a) + SumTotals(b)
  {
    if a == [] {
      assert a + b == b;
    } else {
      assert (a + b)[1..] == a[1..] + b;
      SumTotalsAppend(a[1..], b);
    }
  }

  /** Conservation: the grouped totals add up to the total of all rows. */
  lemma {:induction false} GroupConservesTotal(items: seq<Item>)
    ensures SumTotals(Group(items)) == Total(items)
  {
    if items != [] {
      var p, x := items[..|items| - 1], items[|items| - 1];
      assert items == p + [x];
      var ks := KeysInOrder(p);
      GroupConservesTotal(p);
      assert Group(p) == EntriesFor(ks, p);
      SumTotalsSnoc(ks, p, x);
      if x.key in ks {
        assert Group(items) == EntriesFor(ks, items);
      } else {
        OccursSnoc(items, x.key);
        SumForAbsent(p, x.key);
        assert Group(items) == EntriesFor(ks, items) + [Entry(x.key, x.amount)];
        SumTotalsAppend(EntriesFor(ks, items), [Entry(x.key, x.amount)]);
      }
    }
  }

  /** With every amount at least 1 (a counter), every key that occurs has a
      total of at least 1. */
  lemma {:induction false} SumForPositive(items: seq<Item>, k: string)
    requires forall j :: 0 <= j < |items| ==> items[j].amount >= 1
    requires Occurs(items, k)
    ensures SumFor(items, k) >= 1
  {
    var p := items[..|items| - 1];
    OccursSnoc(items, k);
    if Occurs(p, k) {
      SumForPositive(p, k);
      SumForNonNegative(p, k);
    } else {
      SumForAbsent(p, k);
    }
  }

  lemma {:induction false} SumForNonNegative(items: seq<Item>, k: string)
    requires forall j :: 0 <= j < |items| ==> items[j].amount >= 0
    ensures SumFor(items, k) >= 0
  {
    if items != [] {
      SumForNonNegative(items[..|items| - 1], k);
    }
  }

  /** Counting: when every row contributes 1, the total is the row count. */
  lemma {:induction false} TotalOfOnes(items: seq<Item>)
    requires forall j :: 0 <= j < |items| ==> items[j].amount == 1
    ensures Total(items) == |items|
  {
    if items != [] {
      TotalOfOnes(items[..|items| - 1]);
    }
  }

  predicate DistinctKeys(es: seq<Entry>)
  {
    forall i, j :: 0 <= i < j < |es| ==> es[i].key != es[j].key
  }

  function KeySet(es: seq<Entry>): set<string>
  {
    set e | e in es :: e.key
  }

  /** What the grouped list holds: one entry per distinct key of the rows,
      each carrying the sum of that key's amounts. */
  lemma GroupEntries(items: seq<Item>)
    ensures DistinctKeys(Group(items))
    ensures forall k :: k in KeySet(Group(items)) <==> Occurs(items, k)
    ensures forall e :: e in Group(items) ==> e.total == SumFor(items, e.key)
    ensures items == [] ==> Group(items) == []
  {
    var g, ks := Group(items), KeysInOrder(items);
    forall k | Occurs(items, k) ensures k in KeySet(g) {
      var i :| 0 <= i < |ks| && ks[i] == k;
      assert g[i] in g;
    }
  }

  predicate SortedByTotal(es: seq<Entry>)
  {
    forall i, j :: 0 <= i < j < |es| ==> es[i].total >= es[j].total
  }

  /** One step of a stable insertion sort, largest total first: `x` goes
      before the first entry whose total does not exceed its own. */
  function InsertByTotal(x: Entry, es: seq<Entry>): (r: seq<Entry>)
    ensures |r| == |es| + 1
    ensures multiset(r) == multiset(es) + multiset{x}
  {
    if es == [] || es[0].total <= x.total then [x] + es
    else
      assert es == [es[0]] + es[1..];
      [es[0]] + InsertByTotal(x, es[1..])
  }

  /** `.sort((a, b) => b.total - a.total)`: a stable sort, largest first. */
  function SortByTotalDesc(es: seq<Entry>): (r: seq<Entry>)
    ensures |r| == |es|
    ensures multiset(r) == multiset(es)
  {
    if es == [] then []
    else
      assert es == [es[0]] + es[1..];
      InsertByTotal(es[0], SortByTotalDesc(es[1..]))
  }

  lemma {:induction false} InsertMembers(x: Entry, es: seq<Entry>)
    ensures forall e :: e in InsertByTotal(x, es) <==> e == x || e in es
  {
    if !(es == [] || es[0].total <= x.total) {
      InsertMembers(x, es[1..]);
      assert es == [es[0]] + es[1..];
    }
  }

  lemma {:induction false} SortMembers(es: seq<Entry>)
    ensures forall e :: e in SortByTotalDesc(es) <==> e in es
  {
    if es != [] {
      SortMembers(es[1..]);
      InsertMembers(es[0], SortByTotalDesc(es[1..]));
      assert es == [es[0]] + es[1..];
    }
  }

  /** An entry in front of a sorted list whose totals it bounds keeps it sorted. */
  lemma SortedCons(e: Entry, es: seq<Entry>)
    requires SortedByTotal(es)
    requires forall f :: f in es ==> f.total <= e.total
    ensures SortedByTotal([e] + es)
  {
    var r := [e] + es;
    forall i, j | 0 <= i < j < |r| ensures r[i].total >= r[j].total {
      assert r[j] == es[j - 1];
      if i > 0 {
        assert r[i] == es[i - 1];
      }
    }
  }

  lemma {:induction false} InsertSorted(x: Entry, es: seq<Entry>)
    requires SortedByTotal(es)
    ensures SortedByTotal(InsertByTotal(x, es))
  {
    if es == [] || es[0].total <= x.total {
      SortedCons(x, es);
    } else {
      var rest := InsertByTotal(x, es[1..]);
      InsertSorted(x, es[1..]);
      InsertMembers(x, es[1..]);
      forall f | f in rest ensures f.total <= es[0].total {
        if f != x {
          var m :| 0 <= m < |es[1..]| && es[1..][m] == f;
          assert es[m + 1] == f;
        }
      }
      SortedCons(es[0], rest);
    }
  }

  lemma {:induction false} SortSorted(es: seq<Entry>)
    ensures SortedByTotal(SortByTotalDesc(es))
  {
    if es != [] {
      SortSorted(es[1..]);
      InsertSorted(es[0], SortByTotalDesc(es[1..]));
    }
  }

  /** The entries whose total is `v`, in their order. */
  function WithTotal(es: seq<Entry>, v: int): seq<Entry>
  {
    if es == [] then []
    else (if es[0].total == v then [es[0]] else []) + WithTotal(es[1..], v)
  }

  lemma WithTotalCons(e: Entry, es: seq<Entry>, v: int)
    ensures WithTotal([e] + es, v) == (if e.total == v then [e] else []) + WithTotal(es, v)
  {
    assert ([e] + es)[1..] == es;
  }

  lemma {:induction false} InsertStable(x: Entry, es: seq<Entry>, v: int)
    requires SortedByTotal(es)
    ensures WithTotal(InsertByTotal(x, es), v) ==
              (if x.total == v then [x] else []) + WithTotal(es, v)
  {
    if es == [] || es[0].total <= x.total {
      WithTotalCons(x, es, v);
    } else {
      var rest := InsertByTotal(x, es[1..]);
      WithTotalCons(es[0], rest, v);
      WithTotalCons(es[0], es[1..], v);
      assert es == [es[0]] + es[1..];
      InsertStable(x, es[1..], v);
    }
  }

  /** Stability: for every total, the entries carrying it keep their order. */
  lemma {:induction false} SortStable(es: seq<Entry>, v: int)
    ensures WithTotal(SortByTotalDesc(es), v) == WithTotal(es, v)
  {
    if es != [] {
      SortStable(es[1..], v);
      SortSorted(es[1..]);
      InsertStable(es[0], SortByTotalDesc(es[1..]), v);
    }
  }

  lemma {:induction false} InsertSumTotals(x: Entry, es: seq<Entry>)
    ensures SumTotals(InsertByTotal(x, es)) == x.total + SumTotals(es)
  {
    var r := InsertByTotal(x, es);
    if es == [] || es[0].total <= x.total {
      assert r[0] == x && r[1..] == es;
    } else {
      assert r[0] == es[0] && r[1..] == InsertByTotal(x, es[1..]);
      InsertSumTotals(x, es[1..]);
    }
  }

  lemma {:induction false} SortSumTotals(es: seq<Entry>)
    ensures SumTotals(SortByTotalDesc(es)) == SumTotals(es)
  {
    if es != [] {
      SortSumTotals(es[1..]);
      InsertSumTotals(es[0], SortByTotalDesc(es[1..]));
    }
  }

  /** An entry in front of a list of distinct keys not holding its own key. */
  lemma DistinctCons(e: Entry, es: seq<Entry>)
    requires DistinctKeys(es)
    requires forall f :: f in es ==> f.key != e.key
    ensures DistinctKeys([e] + es)
  {
    var r := [e] + es;
    forall i, j | 0 <= i < j < |r| ensures r[i].key != r[j].key {
      assert r[j] == es[j - 1];
      if i > 0 {
        assert r[i] == es[i - 1];
      }
    }
  }

  lemma {:induction false} InsertDistinct(x: Entry, es: seq<Entry>)
    requires DistinctKeys(es)
    requires forall e :: e in es ==> e.key != x.key
    ensures DistinctKeys(InsertByTotal(x, es))
  {
    if es == [] || es[0].total <= x.total {
      DistinctCons(x, es);
    } else {
      var rest := InsertByTotal(x, es[1..]);
      InsertDistinct(x, es[1..]);
      InsertMembers(x, es[1..]);
      forall f | f in rest ensures f.key != es[0].key {
        if f != x {
          var m :| 0 <= m < |es[1..]| && es[1..][m] == f;
          assert es[m + 1] == f;
        }
      }
      DistinctCons(es[0], rest);
    }
  }

  lemma {:induction false} SortDistinct(es: seq<Entry>)
    requires DistinctKeys(es)
    ensures DistinctKeys(SortByTotalDesc(es))
  {
    if es != [] {
      SortDistinct(es[1..]);
      SortMembers(es[1..]);
      forall f | f in SortByTotalDesc(es[1..]) ensures f.key != es[0].key {
        var m :| 0 <= m < |es[1..]| && es[1..][m] == f;
        assert es[m + 1] == f;
      }
      InsertDistinct(es[0], SortByTotalDesc(es[1..]));
    }
  }

  /** The grouped list sorted by total, largest first, as the ranked reports
      send it. */
  function Ranked(items: seq<Item>): seq<Entry>
  {
    SortByTotalDesc(Group(items))
  }

  /** Everything the ranked reports promise: exactly one entry per distinct
      key, each with its key's sum, totals conserved, largest first, ties in
      dictionary order, and nothing for no rows. */
  lemma RankedReport(items: seq<Item>)
    ensures DistinctKeys(Ranked(items))
    ensures forall k :: k in KeySet(Ranked(items)) <==> Occurs(items, k)
    ensures forall e :: e in Ranked(items) ==> e.total == SumFor(items, e.key)
    ensures SumTotals(Ranked(items)) == Total(items)
    ensures SortedByTotal(Ranked(items))
    ensures forall v :: WithTotal(Ranked(items), v) == WithTotal(Group(items), v)
    ensures items == [] ==> Ranked(items) == []
  {
    var g, r := Group(items), Ranked(items);
    GroupEntries(items);
    SortDistinct(g);
    SortSorted(g);
    SortSumTotals(g);
    GroupConservesTotal(items);
    forall v ensures WithTotal(r, v) == WithTotal(g, v) {
      SortStable(g, v);
    }
    SortMembers(g);
    assert KeySet(r) == KeySet(g);
  }
}
