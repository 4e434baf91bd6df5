/** The record types of `types/index.ts`, used by the reducer-based store and the edit form. */
module Types {

  /** `'income' | 'expense'`. */
  datatype TransactionType = Income | Expense

  /** A recorded money movement. `amount` is a JavaScript number, modelled as a real;
      `category` holds the id of the chosen category; `date` is an ISO date string. */
  datatype Transaction = Transaction(
    id: string,
    kind: TransactionType,
    amount: real,
    category: string,
    description: string,
    date: string)

  /** A classification bucket together with the direction of money it applies to. */
  datatype Category = Category(id: string, name: string, icon: string, kind: TransactionType)

  /** The two colour tables of the app. Their colour values are presentation only,
      so each table is one opaque constant here. */
  datatype Theme = LightTheme | DarkTheme

}
