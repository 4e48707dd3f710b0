/**
 * The app shell: the transaction list it owns (add, import, clear), the totals
 * and lists derived from it, and the text a share target opens the form with.
 */
module Ledger {
  import opened Wrappers
  import opened Text
  import opened Types
  import opened Stats

  // ---- values derived from the list ----

  /** `totalIncome`: the summed amounts of the income transactions. */
  function TotalIncome(ts: seq<Transaction>): real
  {
    Total(OfKind(ts, Income))
  }

  /** `totalExpense`: the summed amounts of the expense transactions. */
  function TotalExpense(ts: seq<Transaction>): real
  {
    Total(OfKind(ts, Expense))
  }

  /** `totalBalance`. */
  function Balance(ts: seq<Transaction>): real
  {
    TotalIncome(ts) - TotalExpense(ts)
  }

  /** `expenseTransactions`: what the pie chart is given. */
  function ExpenseTransactions(ts: seq<Transaction>): seq<Transaction>
  {
    OfKind(ts, Expense)
  }

  /** `transactions.slice(0, 3)`: the dashboard's recent list. */
  function Recent(ts: seq<Transaction>): (r: seq<Transaction>)
    ensures |r| == if |ts| < 3 then |ts| else 3
    ensures forall i :: 0 <= i < |r| ==> r[i] == ts[i]
  {
    if |ts| < 3 then ts else ts[..3]
  }

  /** A signed running sum: income counts up, expense down. An independent definition of the balance. */
  function SignedSum(ts: seq<Transaction>): real
  {
    if ts == [] then 0.0
    else (if ts[0].kind == Income then ts[0].amount else -ts[0].amount) + SignedSum(ts[1..])
  }

  /** The balance is income minus expense, transaction by transaction. */
  lemma {:induction false} BalanceIsSignedSum(ts: seq<Transaction>)
    ensures Balance(ts) == SignedSum(ts)
  {
    if ts != [] {
      BalanceIsSignedSum(ts[1..]);
      assert ts == [ts[0]] + ts[1..];
      OfKindConcat([ts[0]], ts[1..], Income);
      OfKindConcat([ts[0]], ts[1..], Expense);
      TotalConcat(OfKind([ts[0]], Income), OfKind(ts[1..], Income));
      TotalConcat(OfKind([ts[0]], Expense), OfKind(ts[1..], Expense));
      assert OfKind([ts[0]], Income) == if ts[0].kind == Income then [ts[0]] else [];
      assert OfKind([ts[0]], Expense) == if ts[0].kind == Expense then [ts[0]] else [];
    }
  }

  /** The expense list holds exactly the expense transactions. */
  lemma ExpenseTransactionsAre(ts: seq<Transaction>, t: Transaction)
    ensures t in ExpenseTransactions(ts) <==> t in ts && t.kind == Expense
  {
    OfKindMembers(ts, Expense, t);
  }

  /** The expense list keeps input order: of two parts of the list, the first part's expenses come first. */
  lemma ExpenseTransactionsOrder(a: seq<Transaction>, b: seq<Transaction>)
    ensures ExpenseTransactions(a + b) == ExpenseTransactions(a) + ExpenseTransactions(b)
  {
    OfKindConcat(a, b, Expense);
  }

  /** The pie chart's slices add up to the expense total shown above it. */
  lemma ChartMatchesExpenseTotal(ts: seq<Transaction>)
    ensures SliceSum(Slices(ExpenseTransactions(ts))) == TotalExpense(ts)
  {
    SlicesTotal(ExpenseTransactions(ts));
  }

  // ---- the store ----

  /** `{ id: uuidv4(), ...data }` put in front of the list. */
  function Added(ts: seq<Transaction>, data: NewTransaction, id: string): (r: seq<Transaction>)
    ensures |r| == |ts| + 1 && r[0] == WithId(data, id) && r[1..] == ts
  {
    [WithId(data, id)] + ts
  }

  /** No two transactions share an id. */
  predicate UniqueIds(ts: seq<Transaction>)
  {
    forall i, j :: 0 <= i < j < |ts| ==> ts[i].id != ts[j].id
  }

  /** A new record carries the form's fields and the id it was given. */
  lemma AddedRecord(ts: seq<Transaction>, data: NewTransaction, id: string)
    ensures var t := Added(ts, data, id)[0];
      && t.id == id && t.kind == data.kind && t.amount == data.amount && t.merchant == data.merchant
      && t.category == data.category && t.date == data.date && t.note == data.note
  {
  }

  /** With a fresh id, adding keeps the ids unique. */
  lemma AddedKeepsIdsUnique(ts: seq<Transaction>, data: NewTransaction, id: string)
    requires UniqueIds(ts)
    requires forall t :: t in ts ==> t.id != id
    ensures UniqueIds(Added(ts, data, id))
  {
    var r := Added(ts, data, id);
    forall i, j | 0 <= i < j < |r| ensures r[i].id != r[j].id {
      assert r[j] == ts[j - 1];
      if i > 0 {
        assert r[i] == ts[i - 1];
      }
    }
  }

  /** Adding a transaction moves its own kind's total by its amount, and the balance up for income, down for expense. */
  lemma AddedTotals(ts: seq<Transaction>, data: NewTransaction, id: string)
    ensures TotalIncome(Added(ts, data, id)) == TotalIncome(ts) + (if data.kind == Income then data.amount else 0.0)
    ensures TotalExpense(Added(ts, data, id)) == TotalExpense(ts) + (if data.kind == Expense then data.amount else 0.0)
    ensures Balance(Added(ts, data, id)) == Balance(ts) + (if data.kind == Income then data.amount else -data.amount)
  {
    var t := WithId(data, id);
    OfKindConcat([t], ts, Income);
    OfKindConcat([t], ts, Expense);
    TotalConcat(OfKind([t], Income), OfKind(ts, Income));
    TotalConcat(OfKind([t], Expense), OfKind(ts, Expense));
    assert OfKind([t], Income) == if t.kind == Income then [t] else [];
    assert OfKind([t], Expense) == if t.kind == Expense then [t] else [];
  }

  /** The recent list shows the latest additions, newest first. */
  lemma RecentAfterAdds(ts: seq<Transaction>, a: NewTransaction, b: NewTransaction, c: NewTransaction,
                        ia: string, ib: string, ic: string)
    ensures Recent(Added(Added(Added(ts, a, ia), b, ib), c, ic)) == [WithId(c, ic), WithId(b, ib), WithId(a, ia)]
  {
    var r := Added(Added(Added(ts, a, ia), b, ib), c, ic);
    assert r[0] == WithId(c, ic) && r[1] == WithId(b, ib) && r[2] == WithId(a, ia);
  }

  // ---- the share target ----

  /** `params.get(name)`: the query parameter, or `null` when absent. */
  function Param(params: map<string, string>, name: string): Option<string>
  {
    if name in params then Some(params[name]) else None
  }

  /** `${title} ${text} ${url}`.trim(), an absent parameter counting as ''. */
  function ShareText(title: Option<string>, text: Option<string>, url: Option<string>): (r: string)
    ensures r != [] ==> !IsSpace(r[0]) && !IsSpace(r[|r| - 1])
  {
    Trim(OrEmpty(title) + " " + OrEmpty(text) + " " + OrEmpty(url))
  }

  /** The text the form opens with, if the page was opened as a share target with something to share. */
  function SharedText(params: map<string, string>): (r: Option<string>)
    ensures r.Some? ==> Param(params, "share_target") == Some("true") && r.value != ""
  {
    if Param(params, "share_target") != Some("true") then None
    else
      var combined := ShareText(Param(params, "title"), Param(params, "text"), Param(params, "url"));
      if combined == "" then None else Some(combined)
  }

  /** Only white space everywhere: the shared text is empty and the form stays closed. */
  lemma ShareTextEmpty(title: Option<string>, text: Option<string>, url: Option<string>)
    ensures ShareText(title, text, url) == "" <==>
      && (forall k :: 0 <= k < |OrEmpty(title)| ==> IsSpace(OrEmpty(title)[k]))
      && (forall k :: 0 <= k < |OrEmpty(text)| ==> IsSpace(OrEmpty(text)[k]))
      && (forall k :: 0 <= k < |OrEmpty(url)| ==> IsSpace(OrEmpty(url)[k]))
  {
    var a, b, c := OrEmpty(title), OrEmpty(text), OrEmpty(url);
    var s := a + " " + b + " " + c;
    assert forall k :: 0 <= k < |a| ==> s[k] == a[k];
    assert forall k :: 0 <= k < |b| ==> s[|a| + 1 + k] == b[k];
    assert forall k :: 0 <= k < |c| ==> s[|a| + |b| + 2 + k] == c[k];
    assert s[|a|] == ' ' && s[|a| + |b| + 1] == ' ';
    if (forall k :: 0 <= k < |a| ==> IsSpace(a[k])) && (forall k :: 0 <= k < |b| ==> IsSpace(b[k]))
       && (forall k :: 0 <= k < |c| ==> IsSpace(c[k])) {
      forall k | 0 <= k < |s| ensures IsSpace(s[k]) {
        if k < |a| {
        } else if k == |a| {
        } else if k < |a| + 1 + |b| {
          assert s[k] == b[k - |a| - 1];
        } else if k == |a| + 1 + |b| {
        } else {
          assert s[k] == c[k - |a| - |b| - 2];
        }
      }
    }
  }

  /** Only the text was shared: it is opened trimmed. */
  lemma ShareTextOnlyText(text: string)
    ensures ShareText(None, Some(text), None) == Trim(text)
  {
    assert OrEmpty(None) + " " + OrEmpty(Some(text)) + " " + OrEmpty(None) == " " + text + " ";
    TrimPadded(text);
  }


  /** Title, text and url free of surrounding white space are joined by single spaces. */
  lemma ShareTextJoined(title: string, text: string, url: string)
    requires title != [] && !IsSpace(title[0])
    requires url != [] && !IsSpace(url[|url| - 1])
    ensures ShareText(Some(title), Some(text), Some(url)) == title + " " + text + " " + url
  {
    var s := title + " " + text + " " + url;
    assert s[0] == title[0] && s[|s| - 1] == url[|url| - 1];
    TrimUnchanged(s);
  }

  /** The app's state: the transaction list, and whether the form is open and with what text. */
  class App {
    var transactions: seq<Transaction>
    var isModalOpen: bool
    var modalInitialText: string

    /** `useState` defaults; loading the saved list is not part of this model. */
    constructor ()
      ensures transactions == [] && !isModalOpen && modalInitialText == ""
    {
      transactions := [];
      isModalOpen := false;
      modalInitialText := "";
    }

    /** `addTransaction`: the new record goes in front, the old list follows unchanged. */
    method AddTransaction(data: NewTransaction, id: string)
      modifies this
      ensures transactions == Added(old(transactions), data, id)
      ensures isModalOpen == old(isModalOpen) && modalInitialText == old(modalInitialText)
    {
      var t := Transaction(id, data.kind, data.amount, data.merchant, data.category, data.date, data.note);
      transactions := [t] + transactions;
    }

    /** `handleImportData`: the imported list replaces the old one as it is. */
    method ImportData(data: seq<Transaction>)
      modifies this
      ensures transactions == data
      ensures isModalOpen == old(isModalOpen) && modalInitialText == old(modalInitialText)
    {
      transactions := data;
    }

    /** `handleClearData`. */
    method ClearData()
      modifies this
      ensures transactions == []
      ensures TotalIncome(transactions) == 0.0 && TotalExpense(transactions) == 0.0 && Balance(transactions) == 0.0
      ensures isModalOpen == old(isModalOpen) && modalInitialText == old(modalInitialText)
    {
      transactions := [];
    }

    /** `handleOpenModal`: the form opens with an empty initial text. */
    method OpenModal()
      modifies this
      ensures isModalOpen && modalInitialText == ""
      ensures transactions == old(transactions)
    {
      modalInitialText := "";
      isModalOpen := true;
    }

    /** The form's `onClose`: it closes; the initial text stays for the next opening. */
    method CloseModal()
      modifies this
      ensures !isModalOpen
      ensures transactions == old(transactions) && modalInitialText == old(modalInitialText)
    {
      isModalOpen := false;
    }

    /** The share-target effect: opened as a share target with a non-empty combined text, the form opens with it. */
    method ReceiveShare(params: map<string, string>)
      modifies this
      ensures transactions == old(transactions)
      ensures SharedText(params).Some? ==> isModalOpen && modalInitialText == SharedText(params).value
      ensures SharedText(params).None? ==> isModalOpen == old(isModalOpen) && modalInitialText == old(modalInitialText)
    {
      var isShareTarget := Param(params, "share_target") == Some("true");
      if isShareTarget {
        var combinedText := ShareText(Param(params, "title"), Param(params, "text"), Param(params, "url"));
        if combinedText != "" {
          modalInitialText := combinedText;
          isModalOpen := true;
        }
      }
    }
  }
}
