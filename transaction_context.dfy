/** The hook-based store of `contexts/TransactionContext.tsx`: a provider object that
    owns one mutable transaction list, four mutators that replace it, and pure
    aggregate queries over a list. The fresh id and creation time that the source
    takes from the clock, and the calendar decoding of a date string, are parameters. */
module TransactionContext {
  import opened Wrappers
  import opened Sequences
  import opened TransactionTypes

  /** `Omit<Transaction, 'id' | 'createdAt'>`: what a caller supplies to add a record. */
  datatype TransactionInput = TransactionInput(
    amount: real,
    kind: TransactionType,
    category: string,
    description: string,
    date: string)

  /** `Partial<Transaction>`: every key may be absent, `id` and `createdAt` included. */
  datatype TransactionPatch = TransactionPatch(
    id: Option<string>,
    amount: Option<real>,
    kind: Option<TransactionType>,
    category: Option<string>,
    description: Option<string>,
    date: Option<string>,
    createdAt: Option<int>)

  const EmptyPatch: TransactionPatch := TransactionPatch(None, None, None, None, None, None, None)

  /** The month (0 to 11, as `Date.getMonth` counts) and year a date string denotes;
      `None` stands for an invalid date, whose month and year compare equal to nothing. */
  datatype CalendarDate = CalendarDate(month: int, year: int)

  /** `{ ...transactionData, id, createdAt }`. */
  function NewTransaction(data: TransactionInput, id: string, createdAt: int): (t: Transaction)
    ensures t.id == id && t.createdAt == createdAt
    ensures TransactionInput(t.amount, t.kind, t.category, t.description, t.date) == data
  {
    Transaction(id, data.amount, data.kind, data.category, data.description, data.date, createdAt)
  }

  /** `{ ...transaction, ...updatedData }`: the keys present in the patch win. */
  function ApplyPatch(t: Transaction, patch: TransactionPatch): Transaction {
    Transaction(
      if patch.id.Some? then patch.id.value else t.id,
      if patch.amount.Some? then patch.amount.value else t.amount,
      if patch.kind.Some? then patch.kind.value else t.kind,
      if patch.category.Some? then patch.category.value else t.category,
      if patch.description.Some? then patch.description.value else t.description,
      if patch.date.Some? then patch.date.value else t.date,
      if patch.createdAt.Some? then patch.createdAt.value else t.createdAt)
  }

  /** The callback of the `map` in `updateTransaction`. */
  function PatchIfSameId(id: string, patch: TransactionPatch): Transaction -> Transaction {
    (t: Transaction) => if t.id == id then ApplyPatch(t, patch) else t
  }

  /** The callback of the `filter` in `deleteTransaction`. */
  function HasOtherId(id: string): Transaction -> bool {
    (t: Transaction) => t.id != id
  }

  /** The callback of the `filter` in `getTotalIncome` and `getTotalExpenses`. */
  function IsOfKind(kind: TransactionType): Transaction -> bool {
    (t: Transaction) => t.kind == kind
  }

  /** The list after `updateTransaction(id, patch)`. */
  function Updated(ts: seq<Transaction>, id: string, patch: TransactionPatch): seq<Transaction> {
    Map(ts, PatchIfSameId(id, patch))
  }

  /** The list after `deleteTransaction(id)`. */
  function Deleted(ts: seq<Transaction>, id: string): seq<Transaction> {
    Filter(ts, HasOtherId(id))
  }

  // ---------------------------------------------------------------------------
  // Aggregate queries: left folds, as `reduce` computes them

  /** `reduce((total, t) => total + t.amount, total)`. */
  function SumAmounts(total: real, ts: seq<Transaction>): real
    decreases |ts|
  {
    if ts == [] then total else SumAmounts(total + ts[0].amount, ts[1..])
  }

  /** `reduce((total, t) => t.type === 'income' ? total + t.amount : total - t.amount, total)`. */
  function SignedSum(total: real, ts: seq<Transaction>): real
    decreases |ts|
  {
    if ts == [] then total
    else SignedSum(if ts[0].kind == Income then total + ts[0].amount else total - ts[0].amount, ts[1..])
  }

  /** `getTotalBalance`. */
  function GetTotalBalance(ts: seq<Transaction>): real {
    SignedSum(0.0, ts)
  }

  /** `getTotalIncome`. */
  function GetTotalIncome(ts: seq<Transaction>): real {
    SumAmounts(0.0, Filter(ts, IsOfKind(Income)))
  }

  /** `getTotalExpenses`. */
  function GetTotalExpenses(ts: seq<Transaction>): real {
    SumAmounts(0.0, Filter(ts, IsOfKind(Expense)))
  }

  /** The callback of the `filter` in `getTransactionsByMonth`. */
  function InMonth(month: int, year: int, calendar: string -> Option<CalendarDate>): Transaction -> bool {
    (t: Transaction) => calendar(t.date).Some? && calendar(t.date).value.month == month && calendar(t.date).value.year == year
  }

  /** `getTransactionsByMonth(month, year)`. */
  function GetTransactionsByMonth(
    ts: seq<Transaction>, month: int, year: int, calendar: string -> Option<CalendarDate>): seq<Transaction>
  {
    Filter(ts, InMonth(month, year, calendar))
  }

  // ---------------------------------------------------------------------------
  // The provider

  class TransactionProvider {
    var transactions: seq<Transaction>

    /** `useState<Transaction[]>([])`. */
    constructor ()
      ensures transactions == []
    {
      transactions := [];
    }

    /** `addTransaction`: the new record, with the given id and creation time, goes in front. */
    method AddTransaction(data: TransactionInput, id: string, createdAt: int)
      modifies this
      ensures transactions == [NewTransaction(data, id, createdAt)] + old(transactions)
      ensures GetTotalBalance(transactions) == GetTotalBalance(old(transactions)) +
                (if data.kind == Income then data.amount else -data.amount)
    {
      PrependChangesTotals(NewTransaction(data, id, createdAt), transactions);
      transactions := [NewTransaction(data, id, createdAt)] + transactions;
    }

    /** `updateTransaction`: every record with the id is merged with the patch. */
    method UpdateTransaction(id: string, patch: TransactionPatch)
      modifies this
      ensures transactions == Updated(old(transactions), id, patch)
      ensures |transactions| == |old(transactions)|
    {
      transactions := Updated(transactions, id, patch);
    }

    /** `deleteTransaction`. */
    method DeleteTransaction(id: string)
      modifies this
      ensures transactions == Deleted(old(transactions), id)
      ensures forall i :: 0 <= i < |transactions| ==> transactions[i].id != id
    {
      transactions := Deleted(transactions, id);
    }

    /** `clearAllTransactions`. */
    method ClearAllTransactions()
      modifies this
      ensures transactions == []
      ensures GetTotalBalance(transactions) == 0.0 && GetTotalIncome(transactions) == 0.0
      ensures GetTotalExpenses(transactions) == 0.0
    {
      transactions := [];
    }
  }

  // ---------------------------------------------------------------------------
  // Properties of the mutators

  /** `addTransaction` puts exactly one record in front: the supplied fields plus the
      new id and creation time; the previous records follow unchanged. */
  lemma AddTransactionPrepends(ts: seq<Transaction>, data: TransactionInput, id: string, createdAt: int)
    ensures var r := [NewTransaction(data, id, createdAt)] + ts;
      && |r| == |ts| + 1
      && r[0].id == id && r[0].createdAt == createdAt
      && r[0].amount == data.amount && r[0].kind == data.kind && r[0].category == data.category
      && r[0].description == data.description && r[0].date == data.date
      && r[1..] == ts
  {
    var r := [NewTransaction(data, id, createdAt)] + ts;
    assert r[1..] == ts;
  }

  /** `updateTransaction` keeps length and order; matching records become the merge
      of old record and patch, all others stay as they were. */
  lemma UpdateTransactionMerges(ts: seq<Transaction>, id: string, patch: TransactionPatch)
    ensures |Updated(ts, id, patch)| == |ts|
    ensures forall i :: 0 <= i < |ts| ==>
      Updated(ts, id, patch)[i] == if ts[i].id == id then ApplyPatch(ts[i], patch) else ts[i]
  {
  }

  /** An id that matches nothing is a silent no-op. */
  lemma UpdateTransactionUnknownId(ts: seq<Transaction>, id: string, patch: TransactionPatch)
    requires forall i :: 0 <= i < |ts| ==> ts[i].id != id
    ensures Updated(ts, id, patch) == ts
  {
    MapIdentity(ts, PatchIfSameId(id, patch));
  }

  /** A patch overrides exactly the keys it carries: an empty patch changes nothing,
      applying the same patch again changes nothing more, and a patch without `id`
      or `createdAt` keeps them. */
  lemma ApplyPatchLaws(t: Transaction, patch: TransactionPatch)
    ensures ApplyPatch(t, EmptyPatch) == t
    ensures ApplyPatch(ApplyPatch(t, patch), patch) == ApplyPatch(t, patch)
    ensures patch.id.None? ==> ApplyPatch(t, patch).id == t.id
    ensures patch.createdAt.None? ==> ApplyPatch(t, patch).createdAt == t.createdAt
  {
  }

  /** `deleteTransaction` removes exactly the records with the id, keeps the others
      as often as they occurred and in their relative order, and is idempotent. */
  lemma DeleteTransactionRemoves(ts: seq<Transaction>, id: string)
    ensures forall i :: 0 <= i < |Deleted(ts, id)| ==> Deleted(ts, id)[i].id != id
    ensures forall t: Transaction :: t.id != id ==> multiset(Deleted(ts, id))[t] == multiset(ts)[t]
    ensures IsSubsequence(Deleted(ts, id), ts)
    ensures Deleted(Deleted(ts, id), id) == Deleted(ts, id)
  {
    forall t: Transaction | t.id != id
      ensures multiset(Deleted(ts, id))[t] == multiset(ts)[t]
    {
      FilterCount(ts, HasOtherId(id), t);
    }
    FilterIdempotent(ts, HasOtherId(id));
  }

  // ---------------------------------------------------------------------------
  // Properties of the aggregates

  /** A left sum started at `total` is `total` plus the sum started at zero. */
  lemma {:induction false} SumAmountsShift(total: real, ts: seq<Transaction>)
    ensures SumAmounts(total, ts) == total + SumAmounts(0.0, ts)
    decreases |ts|
  {
    if ts != [] {
      SumAmountsShift(total + ts[0].amount, ts[1..]);
      SumAmountsShift(ts[0].amount, ts[1..]);
    }
  }

  lemma {:induction false} SignedSumShift(total: real, ts: seq<Transaction>)
    ensures SignedSum(total, ts) == total + SignedSum(0.0, ts)
    decreases |ts|
  {
    if ts != [] {
      var d := if ts[0].kind == Income then ts[0].amount else -ts[0].amount;
      SignedSumShift(total + d, ts[1..]);
      SignedSumShift(d, ts[1..]);
    }
  }

  /** A record in front of a left sum adds its amount. */
  lemma SumAmountsCons(t: Transaction, ts: seq<Transaction>)
    ensures SumAmounts(0.0, [t] + ts) == t.amount + SumAmounts(0.0, ts)
  {
    assert ([t] + ts)[0] == t && ([t] + ts)[1..] == ts;
    SumAmountsShift(0.0 + t.amount, ts);
  }

  /** The total of one kind after a record is put in front. */
  lemma PrependChangesTotalOfKind(t: Transaction, ts: seq<Transaction>, kind: TransactionType)
    ensures SumAmounts(0.0, Filter([t] + ts, IsOfKind(kind))) ==
      SumAmounts(0.0, Filter(ts, IsOfKind(kind))) + (if t.kind == kind then t.amount else 0.0)
  {
    FilterCons(t, ts, IsOfKind(kind));
    if t.kind == kind {
      SumAmountsCons(t, Filter(ts, IsOfKind(kind)));
    } else {
      assert Filter([t] + ts, IsOfKind(kind)) == Filter(ts, IsOfKind(kind));
    }
  }

  /** Adding a record in front changes each total by that record's contribution. */
  lemma PrependChangesTotals(t: Transaction, ts: seq<Transaction>)
    ensures GetTotalIncome([t] + ts) == GetTotalIncome(ts) + (if t.kind == Income then t.amount else 0.0)
    ensures GetTotalExpenses([t] + ts) == GetTotalExpenses(ts) + (if t.kind == Expense then t.amount else 0.0)
    ensures GetTotalBalance([t] + ts) == GetTotalBalance(ts) + (if t.kind == Income then t.amount else -t.amount)
  {
    PrependChangesTotalOfKind(t, ts, Income);
    PrependChangesTotalOfKind(t, ts, Expense);
    assert ([t] + ts)[0] == t && ([t] + ts)[1..] == ts;
    SignedSumShift(if t.kind == Income then t.amount else -t.amount, ts);
  }

  /** The balance is income minus expenses, for every list: each record is one or the other. */
  lemma {:induction false} BalanceIsIncomeMinusExpenses(ts: seq<Transaction>)
    ensures GetTotalBalance(ts) == GetTotalIncome(ts) - GetTotalExpenses(ts)
    decreases |ts|
  {
    if ts != [] {
      BalanceIsIncomeMinusExpenses(ts[1..]);
      assert ts == [ts[0]] + ts[1..];
      PrependChangesTotals(ts[0], ts[1..]);
    }
  }

  /** Prepending an income record raises income and balance by its amount and leaves
      expenses alone; an expense record raises expenses and lowers the balance. */
  lemma PrependIncomeOrExpense(t: Transaction, ts: seq<Transaction>)
    ensures t.kind == Income ==>
      && GetTotalIncome([t] + ts) == GetTotalIncome(ts) + t.amount
      && GetTotalBalance([t] + ts) == GetTotalBalance(ts) + t.amount
      && GetTotalExpenses([t] + ts) == GetTotalExpenses(ts)
    ensures t.kind == Expense ==>
      && GetTotalExpenses([t] + ts) == GetTotalExpenses(ts) + t.amount
      && GetTotalBalance([t] + ts) == GetTotalBalance(ts) - t.amount
      && GetTotalIncome([t] + ts) == GetTotalIncome(ts)
  {
    PrependChangesTotals(t, ts);
  }

  /** With every amount positive, as records are created, both totals are non-negative. */
  lemma {:induction false} TotalsNonNegative(ts: seq<Transaction>)
    requires forall i :: 0 <= i < |ts| ==> ts[i].amount > 0.0
    ensures GetTotalIncome(ts) >= 0.0 && GetTotalExpenses(ts) >= 0.0
    decreases |ts|
  {
    if ts != [] {
      TotalsNonNegative(ts[1..]);
      assert ts == [ts[0]] + ts[1..];
      PrependChangesTotals(ts[0], ts[1..]);
    }
  }

  /** `getTransactionsByMonth` returns, in list order, exactly the records whose date
      decodes to that month and year, each as often as it occurs. */
  lemma TransactionsByMonthExact(
    ts: seq<Transaction>, month: int, year: int, calendar: string -> Option<CalendarDate>)
    ensures var r := GetTransactionsByMonth(ts, month, year, calendar);
      && IsSubsequence(r, ts)
      && (forall i :: 0 <= i < |r| ==>
            calendar(r[i].date) == Some(CalendarDate(month, year)))
      && (forall t: Transaction :: calendar(t.date) == Some(CalendarDate(month, year)) ==>
            multiset(r)[t] == multiset(ts)[t])
      && (forall t: Transaction :: calendar(t.date) != Some(CalendarDate(month, year)) ==>
            multiset(r)[t] == 0)
  {
    var r := GetTransactionsByMonth(ts, month, year, calendar);
    forall t: Transaction
      ensures multiset(r)[t] ==
        if calendar(t.date) == Some(CalendarDate(month, year)) then multiset(ts)[t] else 0
    {
      FilterCount(ts, InMonth(month, year, calendar), t);
    }
  }
}
