/**
 * The pie chart's data: one slice per category met in the transactions, worth
 * the summed amounts of that category, in the order the categories are first
 * met (a JavaScript `Map` keeps its keys in insertion order).
 */
module Stats {
  import opened Types
  import opened Seqs
  import opened Summary

  /** `{ name, value }`: a category's string value and its summed amount. */
  datatype Slice = Slice(name: string, value: real)

  /** The chart's map is keyed by `t.category`, the category's string value. */
  function CategoryName(t: Transaction): string
  {
    Label(t.category)
  }

  // ---- the reference definition ----

  /** The slices of the names `ns`, each worth the total of its category's transactions. */
  function SlicesFor(ts: seq<Transaction>, ns: seq<string>): (r: seq<Slice>)
    ensures |r| == |ns|
    ensures forall j :: 0 <= j < |ns| ==> r[j] == Slice(ns[j], Total(Members(ts, CategoryName, ns[j])))
  {
    if ns == [] then [] else [Slice(ns[0], Total(Members(ts, CategoryName, ns[0])))] + SlicesFor(ts, ns[1..])
  }

  /** One slice per category met, in first-seen order. */
  function Slices(ts: seq<Transaction>): seq<Slice>
  {
    SlicesFor(ts, GroupKeys(ts, CategoryName))
  }

  /** The summed values of slices. */
  function SliceSum(ss: seq<Slice>): real
  {
    if ss == [] then 0.0 else ss[0].value + SliceSum(ss[1..])
  }

  // ---- the `data` memo ----

  /** The map after the transactions `done`: its keys in insertion order, and each value the category's total so far. */
  ghost predicate TotalsInv(done: seq<Transaction>, key: Transaction -> string, totals: map<string, real>, names: seq<string>)
  {
    && names == GroupKeys(done, key)
    && (forall n :: n in totals <==> n in names)
    && (forall n :: n in totals ==> totals[n] == Total(Members(done, key, n)))
  }

  /** One more transaction adds its amount to its own category's total and nothing to the others'. */
  lemma MemberTotalSnoc(done: seq<Transaction>, t: Transaction, key: Transaction -> string, n: string)
    ensures Total(Members(done + [t], key, n)) ==
      Total(Members(done, key, n)) + (if key(t) == n then t.amount else 0.0)
  {
    MembersSnoc(done, t, key, n);
    var m := Members(done, key, n);
    if key(t) == n {
      assert (m + [t])[..|m|] == m;
    } else {
      assert m + [] == m;
    }
  }

  /** `map.set` of a name not yet in the map appends it to the key order. */
  lemma TotalsOrderSnoc(done: seq<Transaction>, t: Transaction, key: Transaction -> string, totals: map<string, real>, names: seq<string>,
                        totals': map<string, real>, names': seq<string>)
    requires TotalsInv(done, key, totals, names)
    requires names' == if key(t) in totals then names else names + [key(t)]
    requires totals'.Keys == totals.Keys + {key(t)}
    ensures names' == GroupKeys(done + [t], key)
    ensures forall n :: n in totals' <==> n in names'
  {
    GroupKeysSnoc(done, t, key);
  }

  /** `map.set(t.category, (map.get(t.category) || 0) + t.amount)` keeps every total right. */
  lemma TotalsValuesSnoc(done: seq<Transaction>, t: Transaction, key: Transaction -> string, totals: map<string, real>, names: seq<string>,
                         totals': map<string, real>)
    requires TotalsInv(done, key, totals, names)
    requires totals' == totals[key(t) := (if key(t) in totals then totals[key(t)] else 0.0) + t.amount]
    ensures forall n :: n in totals' ==> totals'[n] == Total(Members(done + [t], key, n))
  {
    var name := key(t);
    DedupMembers(KeySeq(done, key), name);
    MembersNonEmpty(done, key, name);
    forall n | n in totals'
      ensures totals'[n] == Total(Members(done + [t], key, n))
    {
      MemberTotalSnoc(done, t, key, n);
    }
  }

  /** One step of the `forEach` keeps the invariant. */
  lemma TotalsSnoc(done: seq<Transaction>, t: Transaction, key: Transaction -> string, totals: map<string, real>, names: seq<string>,
                   done': seq<Transaction>, totals': map<string, real>, names': seq<string>)
    requires TotalsInv(done, key, totals, names)
    requires done' == done + [t]
    requires names' == if key(t) in totals then names else names + [key(t)]
    requires totals' == totals[key(t) := (if key(t) in totals then totals[key(t)] else 0.0) + t.amount]
    ensures TotalsInv(done', key, totals', names')
  {
    TotalsOrderSnoc(done, t, key, totals, names, totals', names');
    TotalsValuesSnoc(done, t, key, totals, names, totals');
  }

  /** The `forEach` callback: `map.set(key(t), (map.get(key(t)) || 0) + t.amount)`. */
  method Put(ghost done: seq<Transaction>, t: Transaction, key: Transaction -> string,
             totals: map<string, real>, names: seq<string>)
    returns (totals': map<string, real>, names': seq<string>)
    requires TotalsInv(done, key, totals, names)
    ensures TotalsInv(done + [t], key, totals', names')
  {
    var name := key(t);
    var current := if name in totals then totals[name] else 0.0;
    names' := if name in totals then names else names + [name];
    totals' := totals[name := current + t.amount];
    TotalsSnoc(done, t, key, totals, names, done + [t], totals', names');
  }

  /**
   * The `forEach` accumulating into a `Map` keyed by `key(t)` (here
   * `t.category`): the map's keys in insertion order, and its values.
   */
  method Accumulate(ts: seq<Transaction>, key: Transaction -> string) returns (totals: map<string, real>, names: seq<string>)
    ensures TotalsInv(ts, key, totals, names)
  {
    totals := map[];
    names := [];
    var i := 0;
    while i < |ts|
      invariant 0 <= i <= |ts|
      invariant TotalsInv(ts[..i], key, totals, names)
    {
      PrefixSnoc(ts, i);
      totals, names := Put(ts[..i], ts[i], key, totals, names);
      i := i + 1;
    }
    PrefixFull(ts);
  }

  /** `Array.from(map.entries()).map(([name, value]) => ({ name, value }))`. */
  function Entries(totals: map<string, real>, names: seq<string>): (ss: seq<Slice>)
    requires forall n :: n in names ==> n in totals
    ensures |ss| == |names|
    ensures forall j :: 0 <= j < |names| ==> ss[j] == Slice(names[j], totals[names[j]])
  {
    if names == [] then [] else [Slice(names[0], totals[names[0]])] + Entries(totals, names[1..])
  }

  /** Reading the finished map in insertion order gives the reference slices. */
  lemma EntriesAreSlices(ts: seq<Transaction>, totals: map<string, real>, names: seq<string>)
    requires TotalsInv(ts, CategoryName, totals, names)
    ensures forall n :: n in names ==> n in totals
    ensures Entries(totals, names) == Slices(ts)
  {
  }

  /** The `data` memo: accumulate, then list the entries. */
  method ChartData(ts: seq<Transaction>) returns (data: seq<Slice>)
    ensures data == Slices(ts)
  {
    var totals, names := Accumulate(ts, CategoryName);
    EntriesAreSlices(ts, totals, names);
    data := Entries(totals, names);
  }

  // ---- properties of the chart data ----

  /** No category has two slices. */
  lemma SliceNamesDistinct(ts: seq<Transaction>)
    ensures forall i, j :: 0 <= i < j < |Slices(ts)| ==> Slices(ts)[i].name != Slices(ts)[j].name
  {
    GroupKeysAre(ts, CategoryName);
  }

  /** Every transaction's category has its slice, whatever the transaction's type. */
  lemma SliceForEveryCategory(ts: seq<Transaction>, i: nat)
    requires i < |ts|
    ensures exists j :: 0 <= j < |Slices(ts)| && Slices(ts)[j].name == CategoryName(ts[i])
  {
    var ns := GroupKeys(ts, CategoryName);
    GroupKeysAre(ts, CategoryName);
    var j :| 0 <= j < |ns| && ns[j] == CategoryName(ts[i]);
    assert Slices(ts)[j].name == ns[j];
  }

  /** Every slice names a category that some transaction carries. */
  lemma SliceCategoryMet(ts: seq<Transaction>, j: nat)
    requires j < |Slices(ts)|
    ensures exists i :: 0 <= i < |ts| && CategoryName(ts[i]) == Slices(ts)[j].name
  {
    var ns := GroupKeys(ts, CategoryName);
    GroupKeysAre(ts, CategoryName);
    KeySeqAt(ts, CategoryName);
    assert ns[j] in ns;
    var i :| 0 <= i < |KeySeq(ts, CategoryName)| && KeySeq(ts, CategoryName)[i] == ns[j];
  }

  /** A slice is worth the summed amounts of exactly the transactions of its category. */
  lemma SliceValue(ts: seq<Transaction>, j: nat, t: Transaction)
    requires j < |Slices(ts)|
    ensures var s := Slices(ts)[j];
      && s.value == Total(Members(ts, CategoryName, s.name))
      && (t in Members(ts, CategoryName, s.name) <==> t in ts && CategoryName(t) == s.name)
  {
    MembersAre(ts, CategoryName, Slices(ts)[j].name, t);
  }

  /** Slices come in the order their categories first appear in the input. */
  lemma SlicesFirstSeenOrder(ts: seq<Transaction>, i: nat, j: nat)
    requires i < j < |Slices(ts)|
    ensures FirstIndex(KeySeq(ts, CategoryName), Slices(ts)[i].name) < FirstIndex(KeySeq(ts, CategoryName), Slices(ts)[j].name)
  {
    DedupFirstSeenOrder(KeySeq(ts, CategoryName), i, j);
  }

  lemma {:induction false} SliceSumByKinds(ts: seq<Transaction>, ns: seq<string>)
    ensures SliceSum(SlicesFor(ts, ns)) ==
      KeyKindSum(ts, CategoryName, ns, Income) + KeyKindSum(ts, CategoryName, ns, Expense)
  {
    if ns != [] {
      KindsSplit(Members(ts, CategoryName, ns[0]));
      SliceSumByKinds(ts, ns[1..]);
      assert SlicesFor(ts, ns)[1..] == SlicesFor(ts, ns[1..]);
    }
  }

  /** The slices add up to the sum of all the amounts given to the chart. */
  lemma SlicesTotal(ts: seq<Transaction>)
    ensures SliceSum(Slices(ts)) == Total(ts)
  {
    var ns := GroupKeys(ts, CategoryName);
    GroupKeysAre(ts, CategoryName);
    SliceSumByKinds(ts, ns);
    KeyKindSumCovers(ts, CategoryName, ns, Income);
    KeyKindSumCovers(ts, CategoryName, ns, Expense);
    KindsSplit(ts);
  }

  /** No transactions, no slices: the chart then shows its empty state. */
  lemma SlicesEmpty(ts: seq<Transaction>)
    ensures Slices(ts) == [] <==> ts == []
  {
    if ts != [] {
      SliceForEveryCategory(ts, 0);
    }
  }
}
