/**
 * The bill list's period summary: transactions grouped by day, month or year,
 * each group with its income and expense totals, groups listed newest key first,
 * and the income/expense ratio bar of a group.
 */
module Summary {
  import opened Types
  import opened Text
  import opened Seqs
  import opened LexOrder

  datatype Period = Day | Month | Year

  // ---- grouping keys and titles ----

  /** Gregorian leap years: divisible by 4, and not by 100 unless by 400. */
  predicate LeapYear(y: nat)
  {
    y % 4 == 0 && (y % 100 != 0 || y % 400 == 0)
  }

  /** The number of days of month `m` (1–12) of year `y`. */
  function DaysInMonth(y: nat, m: nat): nat
  {
    if m == 2 then (if LeapYear(y) then 29 else 28)
    else if m == 4 || m == 6 || m == 9 || m == 11 then 30
    else 31
  }

  /**
   * The documented date shape `YYYY-MM-DD` naming a real calendar day: a month 01–12
   * and a day that exists in that month of that year.
   */
  predicate WellFormedDate(d: string)
  {
    && |d| == 10 && d[4] == '-' && d[7] == '-'
    && AllDigits(d[..4]) && AllDigits(d[5..7]) && AllDigits(d[8..])
    && 1 <= ParseDigits(d[5..7]) <= 12
    && 1 <= ParseDigits(d[8..]) <= DaysInMonth(ParseDigits(d[..4]), ParseDigits(d[5..7]))
  }

  /** `${date.getFullYear()}`: the year of a recognised date without leading zeros, else "NaN" (an invalid Date). */
  function YearText(d: string): string
  {
    if WellFormedDate(d) then DecimalText(ParseDigits(d[..4])) else "NaN"
  }

  /** `${date.getMonth()}`: the zero-based month, unpadded, or "NaN". */
  function MonthIndexText(d: string): string
  {
    if WellFormedDate(d) then DecimalText(ParseDigits(d[5..7]) - 1) else "NaN"
  }

  /** The key a transaction dated `d` is grouped under. */
  function GroupKey(p: Period, d: string): string
  {
    match p
    case Day => d
    case Month => YearText(d) + "-" + MonthIndexText(d)
    case Year => YearText(d)
  }

  /** A group's title: `{year}年` for a year; for day and month the locale formatter, which is not modelled. */
  function GroupTitle(p: Period, d: string, localeTitle: (Period, string) -> string): string
  {
    if p == Year then YearText(d) + "年" else localeTitle(p, d)
  }

  /** The key the loop computes for a transaction under period `p`. */
  function KeyFn(p: Period): Transaction -> string
  {
    (t: Transaction) => GroupKey(p, t.date)
  }

  /** The title the loop computes for a transaction under period `p`. */
  function TitleFn(p: Period, localeTitle: (Period, string) -> string): Transaction -> string
  {
    (t: Transaction) => GroupTitle(p, t.date, localeTitle)
  }

  /** Day keys are the date strings themselves. */
  lemma DayKey(d: string)
    ensures GroupKey(Day, d) == d
  {
  }

  /** A recognised date whose year does not start with 0 has that four-digit year as its year key. */
  lemma YearKeyOfWellFormed(d: string)
    requires WellFormedDate(d) && d[0] != '0'
    ensures GroupKey(Year, d) == d[..4]
  {
    DecimalTextOfDigits(d[..4]);
  }

  /** A recognised date's month key is its year, a dash, and its month minus one, unpadded. */
  lemma MonthKeyOfWellFormed(d: string)
    requires WellFormedDate(d)
    ensures GroupKey(Month, d) == DecimalText(ParseDigits(d[..4])) + "-" + DecimalText(ParseDigits(d[5..7]) - 1)
  {
  }

  lemma ParseLiterals()
    ensures ParseDigits("2024") == 2024 && ParseDigits("10") == 10 && ParseDigits("12") == 12
    ensures ParseDigits("05") == 5 && ParseDigits("01") == 1
  {
    assert "2024"[..3] == "202" && "202"[..2] == "20" && "20"[..1] == "2" && "2"[..0] == "";
    assert "10"[..1] == "1" && "12"[..1] == "1" && "1"[..0] == "";
    assert "05"[..1] == "0" && "01"[..1] == "0" && "0"[..0] == "";
  }

  /**
   * Only real calendar days are recognised: 29 February exists in 2024 but not in
   * 2023, and 30 February never does (an engine would roll it into March).
   */
  lemma CalendarDays()
    ensures WellFormedDate("2024-02-29")
    ensures !WellFormedDate("2023-02-29") && !WellFormedDate("2024-02-30")
  {
    LeapDay();
    NoLeapDay();
    NoThirtieth();
  }

  lemma LeapDay()
    ensures WellFormedDate("2024-02-29")
  {
    var d := "2024-02-29";
    assert d[..4] == "2024";
    assert d[5..7] == "02";
    assert d[8..] == "29";
    assert "2024"[..3] == "202" && "202"[..2] == "20" && "20"[..1] == "2" && "2"[..0] == "";
    assert "02"[..1] == "0" && "29"[..1] == "2" && "0"[..0] == "";
  }

  lemma NoLeapDay()
    ensures !WellFormedDate("2023-02-29")
  {
    var d := "2023-02-29";
    assert d[..4] == "2023";
    assert d[5..7] == "02";
    assert d[8..] == "29";
    assert "2023"[..3] == "202" && "202"[..2] == "20" && "20"[..1] == "2" && "2"[..0] == "";
    assert "02"[..1] == "0" && "29"[..1] == "2" && "0"[..0] == "";
  }

  lemma NoThirtieth()
    ensures !WellFormedDate("2024-02-30")
  {
    var d := "2024-02-30";
    assert d[..4] == "2024";
    assert d[5..7] == "02";
    assert d[8..] == "30";
    assert "2024"[..3] == "202" && "202"[..2] == "20" && "20"[..1] == "2" && "2"[..0] == "";
    assert "02"[..1] == "0" && "30"[..1] == "3" && "0"[..0] == "" && "3"[..0] == "";
  }

  lemma OctoberKey()
    ensures GroupKey(Month, "2024-10-05") == "2024-9"
  {
    var d := "2024-10-05";
    assert d[..4] == "2024" && d[5..7] == "10" && d[8..] == "05";
    ParseLiterals();
    DecimalTextOfDigits("2024");
    MonthKeyOfWellFormed(d);
  }

  lemma DecemberKey()
    ensures GroupKey(Month, "2024-12-01") == "2024-11"
  {
    var d := "2024-12-01";
    assert d[..4] == "2024" && d[5..7] == "12" && d[8..] == "01";
    ParseLiterals();
    DecimalTextOfDigits("2024");
    assert DecimalText(11) == "11";
    MonthKeyOfWellFormed(d);
  }

  /** Months are keyed zero-based and unpadded, so December 2024 ("2024-11") sorts below October 2024 ("2024-9"). */
  lemma MonthKeysUnpadded()
    ensures GroupKey(Month, "2024-10-05") == "2024-9"
    ensures GroupKey(Month, "2024-12-01") == "2024-11"
    ensures Below(GroupKey(Month, "2024-12-01"), GroupKey(Month, "2024-10-05"))
  {
    OctoberKey();
    DecemberKey();
    DecemberBelowOctober();
  }

  lemma DecemberBelowOctober()
    ensures Below("2024-11", "2024-9")
  {
    var late, early := "2024-11", "2024-9";
    assert late[1..] == "024-11" && early[1..] == "024-9";
    assert late[1..][1..] == "24-11" && early[1..][1..] == "24-9";
    assert late[1..][1..][1..] == "4-11" && early[1..][1..][1..] == "4-9";
    assert late[1..][1..][1..][1..] == "-11" && early[1..][1..][1..][1..] == "-9";
    assert Below("11", "9");
  }

  // ---- the reference definition of the grouping ----
  // Stated for any key and title function; `Summarize` instantiates them with a period's.

  /** The group's transactions: those of `ts` with key `k`, in input order. */
  function Members(ts: seq<Transaction>, key: Transaction -> string, k: string): seq<Transaction>
  {
    if ts == [] then []
    else
      var init := Members(ts[..|ts| - 1], key, k);
      if key(ts[|ts| - 1]) == k then init + [ts[|ts| - 1]] else init
  }

  /** The key of every transaction, in input order. */
  function KeySeq(ts: seq<Transaction>, key: Transaction -> string): (ks: seq<string>)
    ensures |ks| == |ts|
  {
    if ts == [] then [] else KeySeq(ts[..|ts| - 1], key) + [key(ts[|ts| - 1])]
  }

  lemma {:induction false} KeySeqAt(ts: seq<Transaction>, key: Transaction -> string)
    ensures forall i :: 0 <= i < |ts| ==> KeySeq(ts, key)[i] == key(ts[i])
  {
    if ts != [] {
      KeySeqAt(ts[..|ts| - 1], key);
    }
  }

  /** The distinct keys, in the order a group is first created for each. */
  function GroupKeys(ts: seq<Transaction>, key: Transaction -> string): seq<string>
  {
    Dedup(KeySeq(ts, key))
  }

  /** The distinct keys, newest first. */
  function SortedKeys(ts: seq<Transaction>, key: Transaction -> string): seq<string>
  {
    SortDescending(GroupKeys(ts, key))
  }

  /** A period group: in the source the key is only the index of the table, here it is kept with the group. */
  datatype Group = Group(key: string, title: string, totalIncome: real, totalExpense: real, transactions: seq<Transaction>)

  /** A group over the run `m`: titled after its first transaction; income summed apart from everything else. */
  function GroupFrom(k: string, m: seq<Transaction>, title: Transaction -> string): Group
  {
    Group(k, if m == [] then "" else title(m[0]), Total(OfKind(m, Income)), Total(OfKind(m, Expense)), m)
  }

  /** The group of key `k`. */
  function GroupOf(ts: seq<Transaction>, key: Transaction -> string, title: Transaction -> string, k: string): Group
  {
    GroupFrom(k, Members(ts, key, k), title)
  }

  /** One group per distinct key, in descending key order. */
  function Aggregate(ts: seq<Transaction>, key: Transaction -> string, title: Transaction -> string): (gs: seq<Group>)
    ensures |gs| == |SortedKeys(ts, key)|
    ensures forall j :: 0 <= j < |gs| ==> gs[j] == GroupOf(ts, key, title, SortedKeys(ts, key)[j])
  {
    var ks := SortedKeys(ts, key);
    seq(|ks|, j requires 0 <= j < |ks| => GroupOf(ts, key, title, ks[j]))
  }

  /** `groupedData` for a period. */
  function Summarize(ts: seq<Transaction>, p: Period, localeTitle: (Period, string) -> string): seq<Group>
  {
    Aggregate(ts, KeyFn(p), TitleFn(p, localeTitle))
  }

  // ---- the loop of `groupedData` ----

  /** A group as first created for a key. */
  function Fresh(k: string, title: string): Group
  {
    Group(k, title, 0.0, 0.0, [])
  }

  /** One transaction added to its group: its amount to income or, otherwise, expense, and the transaction appended. */
  function AddTo(g: Group, t: Transaction): Group
  {
    var totals := if t.kind == Income then g.(totalIncome := g.totalIncome + t.amount)
                  else g.(totalExpense := g.totalExpense + t.amount);
    totals.(transactions := g.transactions + [t])
  }

  lemma MembersSnoc(ts: seq<Transaction>, t: Transaction, key: Transaction -> string, k: string)
    ensures Members(ts + [t], key, k) == Members(ts, key, k) + (if key(t) == k then [t] else [])
    ensures KeySeq(ts + [t], key) == KeySeq(ts, key) + [key(t)]
  {
    assert (ts + [t])[..|ts|] == ts;
  }

  lemma {:induction false} MembersNonEmpty(ts: seq<Transaction>, key: Transaction -> string, k: string)
    ensures Members(ts, key, k) != [] <==> k in KeySeq(ts, key)
  {
    if ts != [] {
      MembersNonEmpty(ts[..|ts| - 1], key, k);
    }
  }

  /** A key gets a group when it is first met; the creation order grows only then. */
  lemma GroupKeysSnoc(ts: seq<Transaction>, t: Transaction, key: Transaction -> string)
    ensures GroupKeys(ts + [t], key) ==
      if key(t) in GroupKeys(ts, key) then GroupKeys(ts, key) else GroupKeys(ts, key) + [key(t)]
  {
    MembersSnoc(ts, t, key, key(t));
    var s := KeySeq(ts + [t], key);
    assert s[..|s| - 1] == KeySeq(ts, key);
  }

  /** Adding one transaction to a run of members, as the loop does. */
  lemma GroupFromAppend(k: string, m: seq<Transaction>, t: Transaction, title: Transaction -> string)
    ensures GroupFrom(k, m + [t], title) == AddTo(if m == [] then Fresh(k, title(t)) else GroupFrom(k, m, title), t)
  {
    KindTotalSnoc(m, t, Income);
    KindTotalSnoc(m, t, Expense);
    if m == [] {
      assert m + [t] == [t];
    } else {
      assert (m + [t])[0] == m[0];
    }
  }

  /** How the group of key `k` changes when `t` is processed. */
  lemma GroupOfSnoc(ts: seq<Transaction>, t: Transaction, key: Transaction -> string, title: Transaction -> string, k: string)
    ensures GroupOf(ts + [t], key, title, k) ==
      if key(t) != k then GroupOf(ts, key, title, k)
      else AddTo(if k in KeySeq(ts, key) then GroupOf(ts, key, title, k) else Fresh(k, title(t)), t)
  {
    MembersSnoc(ts, t, key, k);
    if key(t) == k {
      MembersNonEmpty(ts, key, k);
      GroupFromAppend(k, Members(ts, key, k), t, title);
    } else {
      assert Members(ts, key, k) + [] == Members(ts, key, k);
    }
  }

  /** The table after the transactions `done`: its keys in creation order, and each entry the group of its key. */
  ghost predicate TableInv(done: seq<Transaction>, key: Transaction -> string, title: Transaction -> string,
                           table: map<string, Group>, order: seq<string>)
  {
    && order == GroupKeys(done, key)
    && (forall k :: k in table <==> k in order)
    && (forall k :: k in table ==> table[k] == GroupOf(done, key, title, k))
  }

  /** The table once `t` is processed. */
  ghost function Updated(t: Transaction, key: Transaction -> string, title: Transaction -> string,
                         table: map<string, Group>): map<string, Group>
  {
    var before := if key(t) in table then table[key(t)] else Fresh(key(t), title(t));
    table[key(t) := AddTo(before, t)]
  }

  lemma TableOrderSnoc(done: seq<Transaction>, t: Transaction, key: Transaction -> string, title: Transaction -> string,
                       table: map<string, Group>, order: seq<string>)
    requires TableInv(done, key, title, table, order)
    ensures var order' := if key(t) in table then order else order + [key(t)];
      && order' == GroupKeys(done + [t], key)
      && (forall k :: k in Updated(t, key, title, table) <==> k in order')
  {
    GroupKeysSnoc(done, t, key);
  }

  lemma TableEntriesSnoc(done: seq<Transaction>, t: Transaction, key: Transaction -> string, title: Transaction -> string,
                         table: map<string, Group>, order: seq<string>)
    requires TableInv(done, key, title, table, order)
    ensures forall k :: k in Updated(t, key, title, table) ==>
      Updated(t, key, title, table)[k] == GroupOf(done + [t], key, title, k)
  {
    var table' := Updated(t, key, title, table);
    DedupMembers(KeySeq(done, key), key(t));
    forall k | k in table'
      ensures table'[k] == GroupOf(done + [t], key, title, k)
    {
      GroupOfSnoc(done, t, key, title, k);
    }
  }

  lemma TableSnoc(done: seq<Transaction>, t: Transaction, key: Transaction -> string, title: Transaction -> string,
                  table: map<string, Group>, order: seq<string>)
    requires TableInv(done, key, title, table, order)
    ensures TableInv(done + [t], key, title, Updated(t, key, title, table),
                     if key(t) in table then order else order + [key(t)])
  {
    TableOrderSnoc(done, t, key, title, table, order);
    TableEntriesSnoc(done, t, key, title, table, order);
  }

  /** `keys.map(key => groups[key])`: the table's entries at the given keys, in their order. */
  function ReadOut(table: map<string, Group>, ks: seq<string>): (gs: seq<Group>)
    requires forall k :: k in ks ==> k in table
    ensures |gs| == |ks|
    ensures forall j :: 0 <= j < |ks| ==> gs[j] == table[ks[j]]
  {
    if ks == [] then [] else [table[ks[0]]] + ReadOut(table, ks[1..])
  }

  /** Once every transaction is in the table, each of the sorted keys has its entry. */
  lemma TableCoversSorted(ts: seq<Transaction>, key: Transaction -> string, title: Transaction -> string,
                          table: map<string, Group>, order: seq<string>)
    requires TableInv(ts, key, title, table, order)
    ensures forall k :: k in SortedKeys(ts, key) ==> k in table
  {
    forall k | k in SortedKeys(ts, key)
      ensures k in table
    {
      assert k in multiset(SortedKeys(ts, key));
    }
  }

  /** Reading the finished table in descending key order gives the reference groups. */
  lemma TableFinal(ts: seq<Transaction>, key: Transaction -> string, title: Transaction -> string,
                   table: map<string, Group>, order: seq<string>)
    requires TableInv(ts, key, title, table, order)
    ensures forall k :: k in SortedKeys(ts, key) ==> k in table
    ensures ReadOut(table, SortedKeys(ts, key)) == Aggregate(ts, key, title)
  {
    TableCoversSorted(ts, key, title, table, order);
    var ks := SortedKeys(ts, key);
    var gs := ReadOut(table, ks);
    var agg := Aggregate(ts, key, title);
    forall j | 0 <= j < |ks|
      ensures gs[j] == agg[j]
    {
      assert ks[j] in ks;
    }
  }


  /** The `forEach` of `groupedData`: a key-to-group table, each group created the first time its key is met. */
  method BuildTable(ts: seq<Transaction>, key: Transaction -> string, title: Transaction -> string)
    returns (table: map<string, Group>, order: seq<string>)
    ensures TableInv(ts, key, title, table, order)
  {
    table := map[];
    order := [];
    var i := 0;
    while i < |ts|
      invariant 0 <= i <= |ts|
      invariant TableInv(ts[..i], key, title, table, order)
    {
      var t := ts[i];
      var k := key(t);
      TableSnoc(ts[..i], t, key, title, table, order);
      var g: Group;
      if k in table {
        g := table[k];
      } else {
        g := Fresh(k, title(t));
        order := order + [k];
      }
      table := table[k := AddTo(g, t)];
      PrefixSnoc(ts, i);
      i := i + 1;
    }
    PrefixFull(ts);
  }

  /**
   * The body of `groupedData`: the table of groups, then its keys sorted
   * descending and read out in that order.
   */
  method GroupBy(ts: seq<Transaction>, key: Transaction -> string, title: Transaction -> string)
    returns (groups: seq<Group>)
    ensures groups == Aggregate(ts, key, title)
  {
    var table, order := BuildTable(ts, key, title);
    TableFinal(ts, key, title, table, order);
    groups := ReadOut(table, SortDescending(order));
  }

  /** `groupedData` for a period: keys and titles per the period, then grouped. */
  method GroupTransactions(ts: seq<Transaction>, period: Period, localeTitle: (Period, string) -> string)
    returns (groups: seq<Group>)
    ensures groups == Summarize(ts, period, localeTitle)
  {
    groups := GroupBy(ts, KeyFn(period), TitleFn(period, localeTitle));
  }

  // ---- properties of the grouping ----

  /** The group keys are distinct, and they are exactly the keys of the transactions. */
  lemma GroupKeysAre(ts: seq<Transaction>, key: Transaction -> string)
    ensures Distinct(GroupKeys(ts, key))
    ensures forall i :: 0 <= i < |ts| ==> key(ts[i]) in GroupKeys(ts, key)
    ensures forall k :: k in GroupKeys(ts, key) <==> k in KeySeq(ts, key)
  {
    KeySeqAt(ts, key);
    forall k ensures k in GroupKeys(ts, key) <==> k in KeySeq(ts, key) {
      DedupMembers(KeySeq(ts, key), k);
    }
    forall i | 0 <= i < |ts| ensures key(ts[i]) in GroupKeys(ts, key) {
      assert KeySeq(ts, key)[i] in KeySeq(ts, key);
    }
  }

  /** A transaction's key is among the sorted keys. */
  lemma SortedKeyCovers(ts: seq<Transaction>, key: Transaction -> string, i: nat)
    requires i < |ts|
    ensures key(ts[i]) in SortedKeys(ts, key)
  {
    KeySeqAt(ts, key);
    assert KeySeq(ts, key)[i] in KeySeq(ts, key);
    DedupMembers(KeySeq(ts, key), key(ts[i]));
    assert key(ts[i]) in multiset(GroupKeys(ts, key));
  }

  /** No key is listed twice. */
  lemma SortedKeysDistinct(ts: seq<Transaction>, key: Transaction -> string)
    ensures Distinct(SortedKeys(ts, key))
  {
    var ks := SortedKeys(ts, key);
    forall i, j | 0 <= i < j < |ks| ensures ks[i] != ks[j] {
      BelowIrreflexive(ks[i]);
    }
  }

  /** The sorted keys are distinct, descending, and exactly the keys of the transactions. */
  lemma SortedKeysAre(ts: seq<Transaction>, key: Transaction -> string)
    ensures var ks := SortedKeys(ts, key);
      && Descending(ks) && Distinct(ks)
      && (forall i :: 0 <= i < |ts| ==> key(ts[i]) in ks)
      && (forall k :: k in ks ==> k in KeySeq(ts, key))
  {
    var ks := SortedKeys(ts, key);
    SortedKeysDistinct(ts, key);
    forall i | 0 <= i < |ts| ensures key(ts[i]) in ks {
      SortedKeyCovers(ts, key, i);
    }
    forall k | k in ks ensures k in KeySeq(ts, key) {
      assert k in multiset(GroupKeys(ts, key));
      DedupMembers(KeySeq(ts, key), k);
    }
  }


  lemma {:induction false} MembersAre(ts: seq<Transaction>, key: Transaction -> string, k: string, t: Transaction)
    ensures t in Members(ts, key, k) <==> t in ts && key(t) == k
  {
    if ts != [] {
      MembersAre(ts[..|ts| - 1], key, k, t);
      assert ts == ts[..|ts| - 1] + [ts[|ts| - 1]];
    }
  }

  /** Groups keep input order: the group of a concatenation is the concatenation of the groups. */
  lemma {:induction false} MembersConcat(a: seq<Transaction>, b: seq<Transaction>, key: Transaction -> string, k: string)
    ensures Members(a + b, key, k) == Members(a, key, k) + Members(b, key, k)
  {
    if b != [] {
      assert (a + b)[..|a + b| - 1] == a + b[..|b| - 1];
      MembersConcat(a, b[..|b| - 1], key, k);
    } else {
      assert a + b == a;
    }
  }

  /** The groups are listed by strictly descending key. */
  lemma AggregateDescending(ts: seq<Transaction>, key: Transaction -> string, title: Transaction -> string)
    ensures var gs := Aggregate(ts, key, title);
      forall i, j :: 0 <= i < j < |gs| ==> Below(gs[j].key, gs[i].key)
  {
    SortedKeysAre(ts, key);
  }

  /** Of two groups, the one with the greater key comes first. */
  lemma AggregateOrderByKey(ts: seq<Transaction>, key: Transaction -> string, title: Transaction -> string, i: nat, j: nat)
    requires i < |Aggregate(ts, key, title)| && j < |Aggregate(ts, key, title)|
    requires Below(Aggregate(ts, key, title)[i].key, Aggregate(ts, key, title)[j].key)
    ensures j < i
  {
    var gs := Aggregate(ts, key, title);
    AggregateDescending(ts, key, title);
    BelowIrreflexive(gs[i].key);
    if i < j {
      BelowAsymmetric(gs[i].key, gs[j].key);
    }
  }

  /** Every transaction's key has its group. */
  lemma AggregateHasKey(ts: seq<Transaction>, key: Transaction -> string, title: Transaction -> string, i: nat)
    requires i < |ts|
    ensures exists j :: 0 <= j < |Aggregate(ts, key, title)| && Aggregate(ts, key, title)[j].key == key(ts[i])
  {
    var ks := SortedKeys(ts, key);
    SortedKeyCovers(ts, key, i);
    var j :| 0 <= j < |ks| && ks[j] == key(ts[i]);
    assert Aggregate(ts, key, title)[j].key == ks[j];
  }

  /** Every group's key is the key of some transaction. */
  lemma AggregateKeyMet(ts: seq<Transaction>, key: Transaction -> string, title: Transaction -> string, j: nat)
    requires j < |Aggregate(ts, key, title)|
    ensures exists i :: 0 <= i < |ts| && key(ts[i]) == Aggregate(ts, key, title)[j].key
  {
    var ks := SortedKeys(ts, key);
    SortedKeysAre(ts, key);
    KeySeqAt(ts, key);
    assert ks[j] in ks;
    var i :| 0 <= i < |KeySeq(ts, key)| && KeySeq(ts, key)[i] == ks[j];
  }

  /** Every transaction lands in exactly the one group of its key. */
  lemma AggregatePartition(ts: seq<Transaction>, key: Transaction -> string, title: Transaction -> string, i: nat)
    requires i < |ts|
    ensures var gs := Aggregate(ts, key, title);
      && (exists j :: 0 <= j < |gs| && ts[i] in gs[j].transactions)
      && (forall j :: 0 <= j < |gs| ==> (ts[i] in gs[j].transactions <==> gs[j].key == key(ts[i])))
      && (forall j1, j2 :: 0 <= j1 < |gs| && 0 <= j2 < |gs| && ts[i] in gs[j1].transactions && ts[i] in gs[j2].transactions ==> j1 == j2)
  {
    var gs := Aggregate(ts, key, title);
    var ks := SortedKeys(ts, key);
    SortedKeysDistinct(ts, key);
    SortedKeyCovers(ts, key, i);
    forall j | 0 <= j < |gs| ensures ts[i] in gs[j].transactions <==> gs[j].key == key(ts[i]) {
      MembersAre(ts, key, ks[j], ts[i]);
    }
    var j :| 0 <= j < |ks| && ks[j] == key(ts[i]);
    assert ts[i] in gs[j].transactions;
  }

  /** A group's totals: income is the sum over its income transactions, expense the sum over the others. */
  lemma GroupTotals(ts: seq<Transaction>, key: Transaction -> string, title: Transaction -> string, j: nat)
    requires j < |Aggregate(ts, key, title)|
    ensures var g := Aggregate(ts, key, title)[j];
      && g.totalIncome == Total(OfKind(g.transactions, Income))
      && g.totalExpense == Total(OfKind(g.transactions, Expense))
      && g.totalIncome + g.totalExpense == Total(g.transactions)
  {
    KindsSplit(Aggregate(ts, key, title)[j].transactions);
  }

  /** A group's first transaction is the first of the input with that key. */
  lemma {:induction false} MembersHead(ts: seq<Transaction>, key: Transaction -> string, k: string)
    requires k in KeySeq(ts, key)
    ensures Members(ts, key, k) != []
    ensures Members(ts, key, k)[0] == ts[FirstIndex(KeySeq(ts, key), k)]
  {
    var init := ts[..|ts| - 1];
    var t := ts[|ts| - 1];
    MembersNonEmpty(ts, key, k);
    assert KeySeq(ts, key) == KeySeq(init, key) + [key(t)];
    if k in KeySeq(init, key) {
      MembersHead(init, key, k);
      FirstIndexOfPrefix(KeySeq(init, key), [key(t)], k);
    } else {
      MembersNonEmpty(init, key, k);
      FirstIndexOfNew(KeySeq(init, key), k);
    }
  }

  /** A group is titled after the first transaction of the input that carries its key. */
  lemma GroupTitleFromFirst(ts: seq<Transaction>, key: Transaction -> string, title: Transaction -> string, j: nat)
    requires j < |Aggregate(ts, key, title)|
    ensures var g := Aggregate(ts, key, title)[j];
      && g.key in KeySeq(ts, key)
      && g.transactions != []
      && var first := FirstIndex(KeySeq(ts, key), g.key);
      && g.transactions[0] == ts[first]
      && g.title == title(ts[first])
  {
    var ks := SortedKeys(ts, key);
    SortedKeysAre(ts, key);
    assert ks[j] in ks;
    MembersHead(ts, key, ks[j]);
  }

  /** The summed sizes of groups. */
  function Count(gs: seq<Group>): nat
  {
    if gs == [] then 0 else |gs[0].transactions| + Count(gs[1..])
  }

  /** The summed sizes of the groups of the keys `ks`. */
  function KeyCount(ts: seq<Transaction>, key: Transaction -> string, ks: seq<string>): nat
  {
    if ks == [] then 0 else |Members(ts, key, ks[0])| + KeyCount(ts, key, ks[1..])
  }

  lemma {:induction false} KeyCountSnoc(ts: seq<Transaction>, t: Transaction, key: Transaction -> string, ks: seq<string>)
    requires Distinct(ks)
    ensures KeyCount(ts + [t], key, ks) == KeyCount(ts, key, ks) + (if key(t) in ks then 1 else 0)
  {
    if ks != [] {
      MembersSnoc(ts, t, key, ks[0]);
      KeyCountSnoc(ts, t, key, ks[1..]);
      assert ks == [ks[0]] + ks[1..];
    }
  }

  lemma {:induction false} KeyCountEmpty(key: Transaction -> string, ks: seq<string>)
    ensures KeyCount([], key, ks) == 0
  {
    if ks != [] {
      KeyCountEmpty(key, ks[1..]);
    }
  }

  lemma {:induction false} KeyCountCovers(ts: seq<Transaction>, key: Transaction -> string, ks: seq<string>)
    requires Distinct(ks)
    requires forall i :: 0 <= i < |ts| ==> key(ts[i]) in ks
    ensures KeyCount(ts, key, ks) == |ts|
  {
    if ts == [] {
      KeyCountEmpty(key, ks);
    } else {
      var init := ts[..|ts| - 1];
      KeyCountCovers(init, key, ks);
      KeyCountSnoc(init, ts[|ts| - 1], key, ks);
      assert init + [ts[|ts| - 1]] == ts;
    }
  }

  lemma {:induction false} CountByKeys(gs: seq<Group>, ts: seq<Transaction>, key: Transaction -> string, ks: seq<string>)
    requires |gs| == |ks|
    requires forall j :: 0 <= j < |gs| ==> gs[j].transactions == Members(ts, key, ks[j])
    ensures Count(gs) == KeyCount(ts, key, ks)
  {
    if gs != [] {
      CountByKeys(gs[1..], ts, key, ks[1..]);
    }
  }

  /** The group sizes add up to the number of transactions. */
  lemma AggregateCount(ts: seq<Transaction>, key: Transaction -> string, title: Transaction -> string)
    ensures Count(Aggregate(ts, key, title)) == |ts|
  {
    var ks := SortedKeys(ts, key);
    SortedKeysAre(ts, key);
    CountByKeys(Aggregate(ts, key, title), ts, key, ks);
    KeyCountCovers(ts, key, ks);
  }

  /** A group's total of kind `k`. */
  function KindTotal(g: Group, k: TransactionType): real
  {
    if k == Income then g.totalIncome else g.totalExpense
  }

  /** The summed totals of kind `k` over groups. */
  function KindSum(gs: seq<Group>, k: TransactionType): real
  {
    if gs == [] then 0.0 else KindTotal(gs[0], k) + KindSum(gs[1..], k)
  }

  /** The summed totals of kind `k` over the groups of the keys `ks`. */
  function KeyKindSum(ts: seq<Transaction>, key: Transaction -> string, ks: seq<string>, k: TransactionType): real
  {
    if ks == [] then 0.0 else Total(OfKind(Members(ts, key, ks[0]), k)) + KeyKindSum(ts, key, ks[1..], k)
  }

  lemma {:induction false} KeyKindSumSnoc(ts: seq<Transaction>, t: Transaction, key: Transaction -> string,
                                           ks: seq<string>, k: TransactionType)
    requires Distinct(ks)
    ensures KeyKindSum(ts + [t], key, ks, k) ==
      KeyKindSum(ts, key, ks, k) + (if key(t) in ks && t.kind == k then t.amount else 0.0)
  {
    if ks != [] {
      var m := Members(ts, key, ks[0]);
      MembersSnoc(ts, t, key, ks[0]);
      DistinctTail(ks);
      KeyKindSumSnoc(ts, t, key, ks[1..], k);
      assert key(t) in ks <==> key(t) == ks[0] || key(t) in ks[1..];
      if key(t) == ks[0] {
        KindTotalSnoc(m, t, k);
        assert Total(OfKind(Members(ts + [t], key, ks[0]), k)) == Total(OfKind(m, k)) + (if t.kind == k then t.amount else 0.0);
      } else {
        assert m + [] == m;
        assert Members(ts + [t], key, ks[0]) == m;
      }
    }
  }

  lemma {:induction false} KeyKindSumEmpty(key: Transaction -> string, ks: seq<string>, k: TransactionType)
    ensures KeyKindSum([], key, ks, k) == 0.0
  {
    if ks != [] {
      KeyKindSumEmpty(key, ks[1..], k);
    }
  }

  lemma {:induction false} KeyKindSumCovers(ts: seq<Transaction>, key: Transaction -> string, ks: seq<string>, k: TransactionType)
    requires Distinct(ks)
    requires forall i :: 0 <= i < |ts| ==> key(ts[i]) in ks
    ensures KeyKindSum(ts, key, ks, k) == Total(OfKind(ts, k))
  {
    if ts == [] {
      KeyKindSumEmpty(key, ks, k);
    } else {
      var init, last := ts[..|ts| - 1], ts[|ts| - 1];
      assert init + [last] == ts;
      assert forall i :: 0 <= i < |init| ==> init[i] == ts[i];
      KeyKindSumCovers(init, key, ks, k);
      KeyKindSumSnoc(init, last, key, ks, k);
      assert key(last) in ks;
      KindTotalSnoc(init, last, k);
    }
  }

  lemma {:induction false} KindSumByKeys(gs: seq<Group>, ts: seq<Transaction>, key: Transaction -> string,
                                          title: Transaction -> string, ks: seq<string>, k: TransactionType)
    requires |gs| == |ks|
    requires forall j :: 0 <= j < |gs| ==> gs[j] == GroupOf(ts, key, title, ks[j])
    ensures KindSum(gs, k) == KeyKindSum(ts, key, ks, k)
  {
    if gs != [] {
      KindSumByKeys(gs[1..], ts, key, title, ks[1..], k);
    }
  }

  /** Summed over the groups, the income and expense totals are those of the whole list. */
  lemma AggregateTotals(ts: seq<Transaction>, key: Transaction -> string, title: Transaction -> string)
    ensures KindSum(Aggregate(ts, key, title), Income) == Total(OfKind(ts, Income))
    ensures KindSum(Aggregate(ts, key, title), Expense) == Total(OfKind(ts, Expense))
  {
    var ks := SortedKeys(ts, key);
    SortedKeysAre(ts, key);
    KindSumByKeys(Aggregate(ts, key, title), ts, key, title, ks, Income);
    KindSumByKeys(Aggregate(ts, key, title), ts, key, title, ks, Expense);
    KeyKindSumCovers(ts, key, ks, Income);
    KeyKindSumCovers(ts, key, ks, Expense);
  }

  /** No transactions, no groups (the list then shows its empty state); otherwise at least one group. */
  lemma AggregateEmpty(ts: seq<Transaction>, key: Transaction -> string, title: Transaction -> string)
    ensures Aggregate(ts, key, title) == [] <==> ts == []
  {
    SortedKeysAre(ts, key);
    if ts == [] {
      assert KeySeq(ts, key) == [];
    } else {
      assert key(ts[0]) in SortedKeys(ts, key);
    }
  }

  /** The October 2024 group ("2024-9") is listed before the December 2024 group ("2024-11"): month groups are not in calendar order. */
  lemma OctoberBeforeDecember(ts: seq<Transaction>, lt: (Period, string) -> string, oct: nat, dec: nat)
    requires oct < |Summarize(ts, Month, lt)| && dec < |Summarize(ts, Month, lt)|
    requires Summarize(ts, Month, lt)[oct].key == "2024-9"
    requires Summarize(ts, Month, lt)[dec].key == "2024-11"
    ensures oct < dec
  {
    DecemberBelowOctober();
    AggregateOrderByKey(ts, KeyFn(Month), TitleFn(Month, lt), dec, oct);
  }

  // ---- the ratio bar ----

  /**
   * The bar width of one side: its total over both totals plus 0.001.
   * The code divides without a guard. The denominator is zero when the two totals
   * add up to -0.001, which negative amounts (the amount field has no minimum, and
   * imports are not checked) can produce; there the code renders a NaN or infinite
   * width. The precondition excludes that case.
   */
  function Share(part: real, other: real): real
    requires part + other + 0.001 != 0.0
  {
    part / (part + other + 0.001)
  }

  /** With non-negative totals both shares lie in [0, 1), add up to less than 1, and are 0 for an empty group. */
  lemma ShareBounds(income: real, expense: real)
    requires income >= 0.0 && expense >= 0.0
    ensures 0.0 <= Share(income, expense) < 1.0 && 0.0 <= Share(expense, income) < 1.0
    ensures Share(income, expense) + Share(expense, income) < 1.0
    ensures income == 0.0 && expense == 0.0 ==> Share(income, expense) == 0.0 && Share(expense, income) == 0.0
  {
    var d := income + expense + 0.001;
    assert expense + income + 0.001 == d;
    var q := (income + expense) / d;
    assert Share(income, expense) + Share(expense, income) == q;
    assert q + 0.001 / d == d / d == 1.0;
    assert 0.001 / d > 0.0;
  }
}
