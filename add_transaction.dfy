/**
 * The add-transaction form: the expense and income category lists, matching an
 * AI answer's category against the enumeration, and the form's state machine
 * (type switch, two-phase AI analysis, save).
 */
module AddTransaction {
  import opened Wrappers
  import opened Seqs
  import opened Types
  import opened Gemini

  // ---- the category taxonomy ----

  const ExpenseCategories: seq<Category> :=
    [Food, Shopping, Transport, Bills, Entertainment, Health, Education, ExpenseOther]

  const IncomeCategories: seq<Category> :=
    [Salary, Investment, Bonus, IncomeOther]

  /** The list the form offers for a transaction type. */
  function CategoriesFor(k: TransactionType): seq<Category>
  {
    if k == Expense then ExpenseCategories else IncomeCategories
  }

  /** Eight expense and four income categories, no duplicates, no overlap, and together all twelve. */
  lemma CategoryPartition()
    ensures |ExpenseCategories| == 8 && |IncomeCategories| == 4
    ensures Distinct(ExpenseCategories) && Distinct(IncomeCategories)
    ensures forall c :: c in ExpenseCategories <==> c !in IncomeCategories
    ensures forall c :: c in ExpenseCategories + IncomeCategories <==> c in AllCategories
  {
    CategoryEnumeration();
    assert ExpenseCategories + IncomeCategories == AllCategories;
    forall c ensures c in ExpenseCategories <==> c !in IncomeCategories {
      assert c in ExpenseCategories + IncomeCategories;
    }
  }

  /** The category a type switch falls back to: FOOD for expense, SALARY for income. */
  function SwitchDefault(k: TransactionType): Category
  {
    if k == Expense then Food else Salary
  }

  /** The category a failed AI match falls back to: EXPENSE_OTHER or INCOME_OTHER. */
  function UnmatchedDefault(k: TransactionType): Category
  {
    if k == Expense then ExpenseOther else IncomeOther
  }

  /** The type-change effect's decision: keep a category of the new type's list, else take the type's default. */
  function TypeEffect(k: TransactionType, c: Category): (r: Category)
    ensures r in CategoriesFor(k)
    ensures r == c <==> c in CategoriesFor(k)
  {
    if c in CategoriesFor(k) then c else SwitchDefault(k)
  }

  /** The effect is keyed on the type, so it only runs when a handler actually changed it. */
  function AfterTypeEffect(before: TransactionType, after: TransactionType, c: Category): Category
  {
    if before != after then TypeEffect(after, c) else c
  }

  /** `cs.find(c => c === s)`: the first category of `cs` whose string value is `s`. */
  function FindIn(cs: seq<Category>, s: string): (r: Option<Category>)
    ensures r.Some? ==> r.value in cs && Label(r.value) == s
    ensures r.None? <==> forall c :: c in cs ==> Label(c) != s
  {
    if cs == [] then None
    else if Label(cs[0]) == s then Some(cs[0])
    else FindIn(cs[1..], s)
  }

  /** The match is searched in the whole enumeration, not in the answer's type list. */
  function FindCategory(s: string): Option<Category>
  {
    FindIn(AllCategories, s)
  }

  /**
   * The category an AI answer puts into the form (before the type-change effect):
   * `Object.values(Category).find(c => c === result.category)`, falling back to the
   * type's 'other' category. An answer naming any category gets exactly that category;
   * an answer naming none gets the fallback of its own type.
   */
  function Reconcile(result: AnalysisResult): (c: Category)
    ensures (exists d: Category :: Label(d) == result.category) ==> Label(c) == result.category
    ensures (forall d: Category :: Label(d) != result.category) ==> c == UnmatchedDefault(result.kind)
  {
    CategoryEnumeration();
    var matched := FindCategory(result.category);
    if matched.Some? then matched.value else UnmatchedDefault(result.kind)
  }

  /** A string value of any category is matched to that category, whatever the answer's type. */
  lemma ReconcileExact(result: AnalysisResult, c: Category)
    requires result.category == Label(c)
    ensures Reconcile(result) == c
  {
    CategoryEnumeration();
    var m := FindCategory(result.category);
    LabelInjective(m.value, c);
  }

  /** A string that is no category's value gives the type's 'other' category, which is in the type's list. */
  lemma ReconcileUnmatched(result: AnalysisResult)
    requires forall c: Category :: Label(c) != result.category
    ensures Reconcile(result) == UnmatchedDefault(result.kind)
    ensures Reconcile(result) in CategoriesFor(result.kind)
  {
  }

  /** An expense answer carrying an income category's value keeps that income category. */
  lemma ReconcileAcrossTypes()
    ensures Reconcile(AnalysisResult(100.0, "公司", Label(Salary), Expense, None, None)) == Salary
    ensures Salary !in CategoriesFor(Expense)
  {
    ReconcileExact(AnalysisResult(100.0, "公司", Label(Salary), Expense, None, None), Salary);
  }

  // ---- the form's state ----

  datatype Tab = Ai | Manual

  /** A picked image file: its MIME type and the data URL `FileReader` makes of it. */
  datatype ImageFile = ImageFile(mimeType: string, dataUrl: string)

  /** The fields the form's handlers read and write. */
  datatype FormState = FormState(
    activeTab: Tab,
    isAnalyzing: bool,
    kind: TransactionType,
    amount: string,
    merchant: string,
    category: Category,
    date: string,
    pastedText: string,
    selectedImage: Option<ImageFile>)

  /** The state when the form is created; it opens on the manual tab when the device is offline. */
  function Initial(today: string, offline: bool): FormState
  {
    FormState(if offline then Manual else Ai, false, Expense, "", "", Food, today, "", None)
  }

  /** `setType(k)` followed by the type-change effect. */
  function TypeChanged(s: FormState, k: TransactionType): FormState
  {
    s.(kind := k, category := AfterTypeEffect(s.kind, k, s.category))
  }

  /** The effect that copies a shared text into the text box while the form is open. */
  function InitialTextReceived(s: FormState, isOpen: bool, text: string): FormState
  {
    if isOpen && text != "" then s.(pastedText := text) else s
  }

  /** The analyse button is enabled iff no analysis runs and there is an image or some text. */
  predicate AnalyzeEnabled(s: FormState)
  {
    !s.isAnalyzing && (s.selectedImage.Some? || s.pastedText != "")
  }

  /** The service call `analyzeWithData` makes: with an image, its payload and the file's own MIME type. */
  function CallFor(text: string, image: Option<ImageFile>, mimeType: Option<string>): AnalysisCall
  {
    if image.Some? then AnalysisCall(text, Base64Payload(image.value.dataUrl), Some(image.value.mimeType))
    else AnalysisCall(text, None, mimeType)
  }

  /** The form filled by the answer handler with the category `c` it found: type, amount, merchant, category, date when given, and the manual tab. */
  function Filled(s: FormState, r: AnalysisResult, c: Category, numberText: real -> string): FormState
  {
    FormState(Manual, s.isAnalyzing, r.kind, numberText(r.amount), r.merchant, c,
              if Present(r.date) then r.date.value else s.date, s.pastedText, s.selectedImage)
  }

  /**
   * The form after the service answered: filled on success, kept on failure;
   * either way the analysis is over, and then the type-change effect runs if
   * the answer changed the type.
   */
  function Finished(s: FormState, response: Result<AnalysisResult, ServiceError>, numberText: real -> string): FormState
  {
    if response.Failure? then s.(isAnalyzing := false)
    else
      var f := Filled(s, response.value, Reconcile(response.value), numberText);
      f.(category := AfterTypeEffect(s.kind, f.kind, f.category), isAnalyzing := false)
  }

  /** Save needs both an amount and a merchant. */
  predicate CanSave(s: FormState)
  {
    s.amount != "" && s.merchant != ""
  }

  /** What a successful save hands to `onSave`. */
  function Submission(s: FormState, parseNumber: string -> real): NewTransaction
  {
    NewTransaction(s.kind, parseNumber(s.amount), s.merchant, s.category, s.date, None)
  }

  /** The form after a successful save; type and date are kept. */
  function Saved(s: FormState): FormState
  {
    s.(amount := "", merchant := "", category := Food, pastedText := "", selectedImage := None, activeTab := Ai)
  }

  // ---- properties of the transitions ----

  /** After a type switch the category is in the new type's list: kept if it already was, else the type's default. */
  lemma TypeSwitchCategory(s: FormState, k: TransactionType)
    requires s.kind != k
    ensures TypeChanged(s, k).kind == k
    ensures TypeChanged(s, k).category in CategoriesFor(k)
    ensures s.category in CategoriesFor(k) ==> TypeChanged(s, k).category == s.category
    ensures s.category !in CategoriesFor(k) ==> TypeChanged(s, k).category == SwitchDefault(k)
  {
  }

  /** Choosing the type the form already has leaves the category alone, even one of the other list. */
  lemma SameTypeKeepsCategory(s: FormState)
    ensures TypeChanged(s, s.kind) == s
  {
  }

  /** A failed analysis only ends the analysis. */
  lemma FailedAnalysisKeepsForm(s: FormState, e: ServiceError, numberText: real -> string)
    ensures Finished(s, Failure(e), numberText) == s.(isAnalyzing := false)
  {
  }

  /** A successful analysis takes type, amount and merchant from the answer, the date only when one is given, and opens the manual tab. */
  lemma SuccessfulAnalysisFields(s: FormState, r: AnalysisResult, numberText: real -> string)
    ensures var s' := Finished(s, Success(r), numberText);
      && s'.kind == r.kind && s'.amount == numberText(r.amount) && s'.merchant == r.merchant
      && s'.date == (if Present(r.date) then r.date.value else s.date)
      && s'.activeTab == Manual && !s'.isAnalyzing
      && s'.pastedText == s.pastedText && s'.selectedImage == s.selectedImage
  {
  }

  /**
   * When the answer brings the type the form already had, its category stands as
   * matched, even if it belongs to the other type; when the answer changes the
   * type, the category ends up in the new type's list.
   */
  lemma AnalysisCategory(s: FormState, r: AnalysisResult, numberText: real -> string)
    ensures r.kind == s.kind ==> Finished(s, Success(r), numberText).category == Reconcile(r)
    ensures r.kind != s.kind ==> Finished(s, Success(r), numberText).category in CategoriesFor(r.kind)
  {
  }

  /** An expense form given an expense answer with an income category's value ends up an expense filed under SALARY. */
  lemma AnalysisCanMixTypes(s: FormState, numberText: real -> string)
    requires s.kind == Expense
    ensures var s' := Finished(s, Success(AnalysisResult(100.0, "公司", Label(Salary), Expense, None, None)), numberText);
      s'.kind == Expense && s'.category == Salary && s'.category !in CategoriesFor(s'.kind)
  {
    ReconcileAcrossTypes();
  }

  /** Saving resets the category to FOOD without touching the type, so an income form is left on an expense category. */
  lemma SaveResetIgnoresType(s: FormState)
    requires s.kind == Income
    ensures Saved(s).kind == Income && Saved(s).category !in CategoriesFor(Income)
  {
  }

  /** After a save the text box and the image are cleared, so the analyse button is disabled. */
  lemma SavedDisablesAnalysis(s: FormState)
    ensures !AnalyzeEnabled(Saved(s))
    ensures Saved(s).amount == "" && !CanSave(Saved(s))
  {
  }

  /** The form in the browser: the state fields of `FormState`, plus the two number conversions it relies on. */
  class Form {
    var activeTab: Tab
    var isAnalyzing: bool
    var kind: TransactionType
    var amount: string
    var merchant: string
    var category: Category
    var date: string
    var pastedText: string
    var selectedImage: Option<ImageFile>
    /** Connectivity as observed when the form was created. */
    const isOffline: bool
    /** `Number.prototype.toString`, used to put an answer's amount into the amount box. */
    const numberText: real -> string
    /** `parseFloat`, used to read the amount box on save. */
    const parseNumber: string -> real

    function State(): FormState
      reads this
    {
      FormState(activeTab, isAnalyzing, kind, amount, merchant, category, date, pastedText, selectedImage)
    }

    constructor (today: string, offline: bool, numberText: real -> string, parseNumber: string -> real)
      ensures State() == Initial(today, offline)
      ensures isOffline == offline && this.numberText == numberText && this.parseNumber == parseNumber
    {
      activeTab := if offline then Manual else Ai;
      isAnalyzing := false;
      kind := Expense;
      amount := "";
      merchant := "";
      category := Food;
      date := today;
      pastedText := "";
      selectedImage := None;
      isOffline := offline;
      this.numberText := numberText;
      this.parseNumber := parseNumber;
    }

    /** The body of the effect that runs after `type` changed. */
    method RunTypeEffect()
      modifies this`category
      ensures category == TypeEffect(kind, old(category))
    {
      if kind == Expense {
        if category !in ExpenseCategories {
          category := Food;
        }
      } else {
        if category !in IncomeCategories {
          category := Salary;
        }
      }
    }

    /** A type button: `setType(k)`, then the effect if the type changed. */
    method ChangeType(k: TransactionType)
      modifies this
      ensures State() == TypeChanged(old(State()), k)
    {
      var before := kind;
      kind := k;
      if kind != before {
        RunTypeEffect();
      }
    }

    /** The effect on `[isOpen, initialText]`. */
    method ReceiveInitialText(isOpen: bool, initialText: string)
      modifies this
      ensures State() == InitialTextReceived(old(State()), isOpen, initialText)
    {
      if isOpen && initialText != "" {
        pastedText := initialText;
      }
    }

    /**
     * `analyzeWithData` up to its `await`: offline it does nothing (it only
     * alerts); online it marks the analysis as running and issues the call.
     */
    method StartAnalysis(text: string, image: Option<ImageFile>, mimeType: Option<string>)
      returns (call: Option<AnalysisCall>)
      modifies this
      ensures isOffline ==> call.None? && State() == old(State())
      ensures !isOffline ==> call == Some(CallFor(text, image, mimeType)) && State() == old(State()).(isAnalyzing := true)
      ensures !isOffline ==> !AnalyzeEnabled(State())
    {
      if isOffline {
        return None;
      }
      isAnalyzing := true;
      var imageBase64: Option<string> := None;
      var imageMime := mimeType;
      if image.Some? {
        imageBase64 := Base64Payload(image.value.dataUrl);
        imageMime := Some(image.value.mimeType);
      }
      call := Some(AnalysisCall(text, imageBase64, imageMime));
    }

    /** `handleAIAnalyze`: analyse the text box and the picked image. */
    method AnalyzeSelected() returns (call: Option<AnalysisCall>)
      modifies this
      ensures isOffline ==> call.None? && State() == old(State())
      ensures !isOffline ==> call == Some(CallFor(old(pastedText), old(selectedImage), None))
                             && State() == old(State()).(isAnalyzing := true)
    {
      call := StartAnalysis(pastedText, selectedImage, None);
    }

    /** `handleImageSelect`: the picked file becomes the selected image (its preview is not modelled). */
    method SelectImage(file: ImageFile)
      modifies this
      ensures State() == old(State()).(selectedImage := Some(file))
    {
      selectedImage := Some(file);
    }

    /** The tab buttons: the AI tab only opens while online; the manual tab always does. */
    method ShowTab(tab: Tab)
      modifies this
      ensures tab == Ai && isOffline ==> State() == old(State())
      ensures tab == Manual || !isOffline ==> State() == old(State()).(activeTab := tab)
    {
      if tab == Manual || !isOffline {
        activeTab := tab;
      }
    }

    /** A category button; only the current type's list is shown, and the pick is set as it is. */
    method PickCategory(c: Category)
      requires c in CategoriesFor(kind)
      modifies this
      ensures State() == old(State()).(category := c)
    {
      category := c;
    }

    /**
     * `handleClipboardPaste`, with the clipboard read given as `clipboard`
     * (`None` when reading was refused): a non-empty text goes into the text
     * box and is analysed at once; otherwise nothing changes.
     */
    method PasteFromClipboard(clipboard: Option<string>) returns (call: Option<AnalysisCall>)
      modifies this
      ensures !Present(clipboard) ==> call.None? && State() == old(State())
      ensures Present(clipboard) && isOffline ==> call.None? && State() == old(State()).(pastedText := clipboard.value)
      ensures Present(clipboard) && !isOffline ==>
                call == Some(CallFor(clipboard.value, None, None))
                && State() == old(State()).(pastedText := clipboard.value, isAnalyzing := true)
    {
      if clipboard.Some? && clipboard.value != "" {
        pastedText := clipboard.value;
        call := StartAnalysis(clipboard.value, None, None);
      } else {
        call := None;
      }
    }

    /** The success branch of `analyzeWithData`: the answer's fields, and the category found for it, go into the form. */
    method ApplyResult(result: AnalysisResult, c: Category)
      modifies this`kind, this`amount, this`merchant, this`category, this`date, this`activeTab
      ensures State() == Filled(old(State()), result, c, numberText)
    {
      kind := result.kind;
      amount := numberText(result.amount);
      merchant := result.merchant;
      category := c;
      date := if result.date.Some? && result.date.value != "" then result.date.value else date;
      activeTab := Manual;
    }

    /**
     * `analyzeWithData` after its `await`: on success the answer fills the
     * form; either way `isAnalyzing` is cleared; then the type-change effect
     * runs if the answer changed the type.
     */
    method FinishAnalysis(response: Result<AnalysisResult, ServiceError>)
      modifies this
      ensures State() == Finished(old(State()), response, numberText)
    {
      var before := kind;
      if response.Success? {
        var c := Reconcile(response.value);
        ApplyResult(response.value, c);
      }
      isAnalyzing := false;
      if kind != before {
        RunTypeEffect();
      }
    }

    /**
     * `handleSave`: without amount or merchant nothing happens and the form stays open;
     * otherwise submit, reset, and ask the page to close the form (`onClose`).
     */
    method Save() returns (submitted: Option<NewTransaction>, closes: bool)
      modifies this
      ensures closes == CanSave(old(State()))
      ensures submitted == if CanSave(old(State())) then Some(Submission(old(State()), parseNumber)) else None
      ensures State() == if CanSave(old(State())) then Saved(old(State())) else old(State())
    {
      if amount == "" || merchant == "" {
        return None, false;
      }
      submitted := Some(NewTransaction(kind, parseNumber(amount), merchant, category, date, None));
      amount := "";
      merchant := "";
      category := Food;
      pastedText := "";
      selectedImage := None;
      activeTab := Ai;
      closes := true;
    }
  }
}
