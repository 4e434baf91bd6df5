/** The edit form of `components/EditTransactionModal.tsx`: four pieces of form state
    that setters update one at a time, the category list it offers for the current
    type, and the save rule that validates the form and builds the updated record.
    `parseFloat` and `Number.prototype.toString` are parameters; alerts, closing the
    modal and rendering are outside the model. */
module EditTransactionModal {
  import opened Wrappers
  import opened Sequences
  import opened Types
  import AppContext

  /** The values of the four form fields at one moment. */
  datatype FormFields = FormFields(
    kind: TransactionType,
    amount: string,
    description: string,
    selectedCategory: string)

  /** What pressing save does: an alert for an empty field, an alert for an invalid
      amount, nothing when there is no transaction, or `onSave` with the updated record. */
  datatype SaveOutcome =
    | MissingField
    | InvalidAmount
    | NoTransaction
    | Saved(updated: Transaction)

  /** The callback of the category `filter`. */
  function IsOfKind(kind: TransactionType): Category -> bool {
    (c: Category) => c.kind == kind
  }

  /** The categories offered for a type (`state.categories.filter(c => c.type === type)`). */
  function OfferedCategories(catalog: seq<Category>, kind: TransactionType): seq<Category> {
    Filter(catalog, IsOfKind(kind))
  }

  /** `handleSave`. `parseFloat` gives `None` where the source gets `NaN`. */
  function HandleSave(
    form: FormFields, transaction: Option<Transaction>, parseFloat: string -> Option<real>): (r: SaveOutcome)
    ensures r == MissingField <==> form.amount == "" || form.description == "" || form.selectedCategory == ""
    ensures r == InvalidAmount <==>
      && form.amount != "" && form.description != "" && form.selectedCategory != ""
      && (parseFloat(form.amount).None? || parseFloat(form.amount).value <= 0.0)
    ensures r == NoTransaction <==>
      && form.amount != "" && form.description != "" && form.selectedCategory != ""
      && parseFloat(form.amount).Some? && parseFloat(form.amount).value > 0.0
      && transaction.None?
    ensures r.Saved? ==>
      && transaction.Some?
      && r.updated.id == transaction.value.id
      && r.updated.date == transaction.value.date
      && r.updated.kind == form.kind
      && Some(r.updated.amount) == parseFloat(form.amount)
      && r.updated.category == form.selectedCategory
      && r.updated.description == form.description
    ensures r.Saved? ==>
      r.updated.amount > 0.0 && r.updated.description != "" && r.updated.category != ""
  {
    if form.amount == "" || form.description == "" || form.selectedCategory == "" then
      MissingField
    else
      var numAmount := parseFloat(form.amount);
      if numAmount.None? || numAmount.value <= 0.0 then
        InvalidAmount
      else if transaction.None? then
        NoTransaction
      else
        Saved(transaction.value.(
          kind := form.kind,
          amount := numAmount.value,
          category := form.selectedCategory,
          description := form.description))
  }

  class EditTransactionForm {
    var kind: TransactionType
    var amount: string
    var description: string
    var selectedCategory: string

    function Fields(): FormFields
      reads this
    {
      FormFields(kind, amount, description, selectedCategory)
    }

    /** The four `useState` initial values. */
    constructor ()
      ensures Fields() == FormFields(Expense, "", "", "")
    {
      kind := Expense;
      amount := "";
      description := "";
      selectedCategory := "";
    }

    /** The effect that runs when the transaction prop changes: copy its fields into
        the form, the amount rendered by `toText`; with no transaction, nothing changes. */
    method LoadTransaction(transaction: Option<Transaction>, toText: real -> string)
      modifies this
      ensures transaction.None? ==> Fields() == old(Fields())
      ensures transaction.Some? ==>
        Fields() == FormFields(transaction.value.kind, toText(transaction.value.amount),
                               transaction.value.description, transaction.value.category)
    {
      if transaction.Some? {
        kind := transaction.value.kind;
        amount := toText(transaction.value.amount);
        description := transaction.value.description;
        selectedCategory := transaction.value.category;
      }
    }

    /** `handleTypeChange`: switch the type and clear the selected category. */
    method HandleTypeChange(newKind: TransactionType)
      modifies this
      ensures Fields() == old(Fields()).(kind := newKind, selectedCategory := "")
    {
      kind := newKind;
      selectedCategory := "";
    }

    /** The amount field's `onChangeText`. */
    method SetAmount(text: string)
      modifies this
      ensures Fields() == old(Fields()).(amount := text)
    {
      amount := text;
    }

    /** The description field's `onChangeText`. */
    method SetDescription(text: string)
      modifies this
      ensures Fields() == old(Fields()).(description := text)
    {
      description := text;
    }

    /** Pressing a category chip selects that category's id. */
    method SelectCategory(category: Category)
      modifies this
      ensures Fields() == old(Fields()).(selectedCategory := category.id)
    {
      selectedCategory := category.id;
    }
  }

  // ---------------------------------------------------------------------------
  // Properties of the form

  /** The offered categories are exactly the catalog entries of the form's type,
      each as often as in the catalog, in catalog order. */
  lemma OfferedCategoriesExact(catalog: seq<Category>, kind: TransactionType)
    ensures var r := OfferedCategories(catalog, kind);
      && IsSubsequence(r, catalog)
      && (forall i :: 0 <= i < |r| ==> r[i].kind == kind)
      && (forall c: Category :: c.kind == kind ==> multiset(r)[c] == multiset(catalog)[c])
      && (forall c: Category :: c.kind != kind ==> multiset(r)[c] == 0)
  {
    var r := OfferedCategories(catalog, kind);
    forall c: Category
      ensures multiset(r)[c] == if c.kind == kind then multiset(catalog)[c] else 0
    {
      FilterCount(catalog, IsOfKind(kind), c);
    }
  }

  /** With the default catalog, income offers its first four entries. */
  lemma OfferedDefaultIncomeCategories()
    ensures OfferedCategories(AppContext.DefaultCategories, Income) == AppContext.DefaultCategories[..4]
  {
    var d := AppContext.DefaultCategories;
    AppContext.DefaultCatalogKinds();
    var incomes, expenses := d[..4], d[4..];
    assert d == incomes + expenses;
    assert forall i :: 0 <= i < |incomes| ==> incomes[i] == d[i];
    assert forall i :: 0 <= i < |expenses| ==> expenses[i] == d[i + 4];
    FilterPrefix(incomes, expenses, IsOfKind(Income));
  }

  /** With the default catalog, expense offers the eight entries after the first four. */
  lemma OfferedDefaultExpenseCategories()
    ensures OfferedCategories(AppContext.DefaultCategories, Expense) == AppContext.DefaultCategories[4..]
  {
    var d := AppContext.DefaultCategories;
    AppContext.DefaultCatalogKinds();
    var incomes, expenses := d[..4], d[4..];
    assert d == incomes + expenses;
    assert forall i :: 0 <= i < |incomes| ==> incomes[i] == d[i];
    assert forall i :: 0 <= i < |expenses| ==> expenses[i] == d[i + 4];
    FilterSuffix(incomes, expenses, IsOfKind(Expense));
  }

  /** A save right after a type change is rejected: the selected category is empty. */
  lemma SaveAfterTypeChangeRejected(
    form: FormFields, newKind: TransactionType, transaction: Option<Transaction>, parseFloat: string -> Option<real>)
    ensures HandleSave(form.(kind := newKind, selectedCategory := ""), transaction, parseFloat) == MissingField
  {
  }

  /** Saving succeeds exactly when every field is filled, the amount parses to a
      positive number and there is a transaction being edited. */
  lemma SaveSucceedsIff(form: FormFields, transaction: Option<Transaction>, parseFloat: string -> Option<real>)
    ensures HandleSave(form, transaction, parseFloat).Saved? <==>
      && form.amount != "" && form.description != "" && form.selectedCategory != ""
      && parseFloat(form.amount).Some? && parseFloat(form.amount).value > 0.0
      && transaction.Some?
  {
  }

  /** Opening a valid record and saving without edits hands back the same record,
      provided the amount's text form parses back to the amount. */
  lemma SaveUneditedIsIdentity(t: Transaction, toText: real -> string, parseFloat: string -> Option<real>)
    requires t.amount > 0.0 && t.description != "" && t.category != ""
    requires toText(t.amount) != "" && parseFloat(toText(t.amount)) == Some(t.amount)
    ensures HandleSave(FormFields(t.kind, toText(t.amount), t.description, t.category), Some(t), parseFloat)
         == Saved(t)
  {
  }

  /** The form as a whole: open a record, change the type, then save: rejected. */
  method OpenChangeTypeAndSave(
    t: Transaction, newKind: TransactionType, toText: real -> string, parseFloat: string -> Option<real>)
    returns (outcome: SaveOutcome)
    ensures outcome == MissingField
  {
    var form := new EditTransactionForm();
    form.LoadTransaction(Some(t), toText);
    form.HandleTypeChange(newKind);
    outcome := HandleSave(form.Fields(), Some(t), parseFloat);
  }
}
