/** The ledger's record types, as declared in types.ts, and the sums over them. */
module Types {
  import opened Wrappers
  import opened Seqs

  /** `TransactionType`: a transaction is either money out or money in. */
  datatype TransactionType = Expense | Income

  /** The string a `TransactionType` is serialised as. */
  function TypeName(k: TransactionType): string
  {
    match k
    case Expense => "expense"
    case Income => "income"
  }

  /** The closed `Category` enumeration; the first eight are expense categories, the last four income ones. */
  datatype Category =
    | Food | Shopping | Transport | Bills | Entertainment | Health | Education | ExpenseOther
    | Salary | Investment | Bonus | IncomeOther

  /** The string value each enum member carries. */
  function Label(c: Category): string
  {
    match c
    case Food => "餐饮美食"
    case Shopping => "购物消费"
    case Transport => "交通出行"
    case Bills => "生活缴费"
    case Entertainment => "休闲娱乐"
    case Health => "医疗健康"
    case Education => "学习教育"
    case ExpenseOther => "其他支出"
    case Salary => "工资薪金"
    case Investment => "投资理财"
    case Bonus => "奖金补贴"
    case IncomeOther => "其他入账"
  }

  /** `Object.values(Category)`: every member, in declaration order. */
  const AllCategories: seq<Category> :=
    [Food, Shopping, Transport, Bills, Entertainment, Health, Education, ExpenseOther,
     Salary, Investment, Bonus, IncomeOther]

  /** The enumeration has twelve members, all listed once, with pairwise different string values. */
  lemma CategoryEnumeration()
    ensures |AllCategories| == 12 && Distinct(AllCategories)
    ensures forall c: Category :: c in AllCategories
    ensures forall i, j :: 0 <= i < j < |AllCategories| ==> Label(AllCategories[i]) != Label(AllCategories[j])
  {
    forall c: Category ensures c in AllCategories {
      match c
      case Food => assert AllCategories[0] == c;
      case Shopping => assert AllCategories[1] == c;
      case Transport => assert AllCategories[2] == c;
      case Bills => assert AllCategories[3] == c;
      case Entertainment => assert AllCategories[4] == c;
      case Health => assert AllCategories[5] == c;
      case Education => assert AllCategories[6] == c;
      case ExpenseOther => assert AllCategories[7] == c;
      case Salary => assert AllCategories[8] == c;
      case Investment => assert AllCategories[9] == c;
      case Bonus => assert AllCategories[10] == c;
      case IncomeOther => assert AllCategories[11] == c;
    }
  }

  /** Different members carry different strings, so a string names at most one category. */
  lemma LabelInjective(c: Category, d: Category)
    requires Label(c) == Label(d)
    ensures c == d
  {
  }

  /** The two transaction types are serialised as 'expense' and 'income', and by nothing else. */
  lemma TypeNames()
    ensures forall k: TransactionType :: TypeName(k) in {"expense", "income"}
    ensures TypeName(Expense) != TypeName(Income)
  {
  }

  /**
   * `Transaction`: `note` is the only optional field; `category` is a `Category`,
   * and `date` is documented as a `YYYY-MM-DD` string. `type` is called `kind` here.
   */
  datatype Transaction = Transaction(
    id: string,
    kind: TransactionType,
    amount: real,
    merchant: string,
    category: Category,
    date: string,
    note: Option<string>)

  /** `Omit<Transaction, 'id'>`: what the entry form hands to the store. */
  datatype NewTransaction = NewTransaction(
    kind: TransactionType,
    amount: real,
    merchant: string,
    category: Category,
    date: string,
    note: Option<string>)

  /** `{ id, ...data }`. */
  function WithId(data: NewTransaction, id: string): Transaction
  {
    Transaction(id, data.kind, data.amount, data.merchant, data.category, data.date, data.note)
  }

  /**
   * `ExpenseAnalysisResult`: what the AI service answers. Its `category` is free
   * text, not a `Category`, so it has to be reconciled before it can be stored;
   * `date` and `confidence` are optional.
   */
  datatype AnalysisResult = AnalysisResult(
    amount: real,
    merchant: string,
    category: string,
    kind: TransactionType,
    date: Option<string>,
    confidence: Option<real>)

  /** `ts.reduce((acc, curr) => acc + curr.amount, 0)`, a left fold. */
  function Total(ts: seq<Transaction>): real
  {
    if ts == [] then 0.0 else Total(ts[..|ts| - 1]) + ts[|ts| - 1].amount
  }

  /** `ts.filter(t => t.type === k)`. */
  function OfKind(ts: seq<Transaction>, k: TransactionType): seq<Transaction>
  {
    if ts == [] then []
    else
      var init := OfKind(ts[..|ts| - 1], k);
      if ts[|ts| - 1].kind == k then init + [ts[|ts| - 1]] else init
  }

  lemma {:induction false} TotalConcat(a: seq<Transaction>, b: seq<Transaction>)
    ensures Total(a + b) == Total(a) + Total(b)
  {
    if b != [] {
      assert (a + b)[..|a + b| - 1] == a + b[..|b| - 1];
      TotalConcat(a, b[..|b| - 1]);
    } else {
      assert a + b == a;
    }
  }

  /** Filtering keeps input order: the filter of a concatenation is the concatenation of the filters. */
  lemma {:induction false} OfKindConcat(a: seq<Transaction>, b: seq<Transaction>, k: TransactionType)
    ensures OfKind(a + b, k) == OfKind(a, k) + OfKind(b, k)
  {
    if b != [] {
      assert (a + b)[..|a + b| - 1] == a + b[..|b| - 1];
      OfKindConcat(a, b[..|b| - 1], k);
    } else {
      assert a + b == a;
    }
  }

  /** One more transaction adds its amount to its own kind's total and nothing to the other's. */
  lemma KindTotalSnoc(m: seq<Transaction>, t: Transaction, k: TransactionType)
    ensures Total(OfKind(m + [t], k)) == Total(OfKind(m, k)) + (if t.kind == k then t.amount else 0.0)
  {
    assert (m + [t])[..|m|] == m;
    var f := OfKind(m, k);
    assert (f + [t])[..|f|] == f;
  }

  /** The filter keeps exactly the transactions of kind `k`. */
  lemma {:induction false} OfKindMembers(ts: seq<Transaction>, k: TransactionType, t: Transaction)
    ensures t in OfKind(ts, k) <==> t in ts && t.kind == k
  {
    if ts != [] {
      OfKindMembers(ts[..|ts| - 1], k, t);
      assert ts == ts[..|ts| - 1] + [ts[|ts| - 1]];
    }
  }

  /** Every transaction is of exactly one kind: the two filters split the list and its total. */
  lemma {:induction false} KindsSplit(ts: seq<Transaction>)
    ensures |OfKind(ts, Income)| + |OfKind(ts, Expense)| == |ts|
    ensures Total(OfKind(ts, Income)) + Total(OfKind(ts, Expense)) == Total(ts)
  {
    if ts != [] {
      var init := ts[..|ts| - 1];
      var t := ts[|ts| - 1];
      KindsSplit(init);
      if t.kind == Income {
        TotalConcat(OfKind(init, Income), [t]);
      } else {
        TotalConcat(OfKind(init, Expense), [t]);
      }
    }
  }
}
