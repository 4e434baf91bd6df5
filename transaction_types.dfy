/** The record type of `types/Transaction.ts`, used by the hook-based transaction store.
    It is declared separately from `Types`: this variant also records when a
    transaction was created. */
module TransactionTypes {

  /** `'expense' | 'income'`. */
  datatype TransactionType = Expense | Income

  /** `createdAt` is a JavaScript `Date`, modelled as its millisecond timestamp. */
  datatype Transaction = Transaction(
    id: string,
    amount: real,
    kind: TransactionType,
    category: string,
    description: string,
    date: string,
    createdAt: int)

}
