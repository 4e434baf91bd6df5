# Daily expense manager: transaction stores and edit form in Dafny

This project models the part of the expense-tracking app that holds state: its
transaction stores and the form that edits a record. Amounts are modelled as
real numbers. The model covers three source files:

- **The reducer-based global store** (`context/AppContext.tsx`), in module
  `AppContext`. `AppReducer` is the pure transition function over the state record
  `AppState`. Its actions are add, update, delete, set-all, toggle theme, set
  onboarded, set loading and load-state. `Unrecognised` stands for an action object
  whose tag is none of these, which is the reducer's `default` branch.
  `StoredState` and `LoadStoredData` model the start-up load. They decide, key by
  key, what the load puts into the partial state, taking the strings storage
  returned and a JSON parser as inputs. `Dispatch` is a sequence of reducer steps,
  and the session lemmas are stated over it.
- **The hook-based store** (`contexts/TransactionContext.tsx`), in module
  `TransactionContext`. The class `TransactionProvider` owns the mutable list and
  has the four mutators. The totals and the by-month query are pure left folds and
  filters over a list.
- **The edit form** (`components/EditTransactionModal.tsx`), in module
  `EditTransactionModal`. The class `EditTransactionForm` holds the four form
  fields and their setters. `HandleSave` is the save rule, and `OfferedCategories`
  is the category list shown for the current type.

Records come from `types/index.ts` (module `Types`) and from `types/Transaction.ts`
(module `TransactionTypes`). The two variants are kept apart, as in the source:
only the second one has `createdAt`. `Sequences` holds `Filter`, `Map` and the
subsequence relation. `Wrappers` holds `Option`.

The foreign calls are parameters of the functions that use them:

- `JSON.parse` is `jsonParse: string -> Option<Parsed>`. `None` means the call threw.
- `parseFloat` is `parseFloat: string -> Option<real>`. `None` means `NaN`.
- `Number.prototype.toString` is `toText`.
- Decoding a date string into a month and year is `calendar`. `None` means an
  invalid date.
- `Date.now()` and `new Date()` become explicit `id` and `createdAt` arguments.

Worth knowing about the code, and kept by the model:

- `updateTransaction` and `UPDATE_TRANSACTION` have no not-found error. An unknown
  id leaves the list unchanged.
- `UPDATE_TRANSACTION` replaces the whole record; it does not merge fields.
- Neither store validates. The add screen and the edit form both check their
  input before calling a store; only the edit form's rule is modelled.
- The load step does not drop malformed records. It takes any parsed array as it is.
- The edit form stores a category's id in `category`, not its name.

Two behaviours of the reducer are worth knowing:

- A `LOAD_STATE` payload may carry any key of the state, `categories` and `theme`
  included. A `theme` in the payload is always overridden. `categories` is never
  set by the load step, so a session keeps the default catalog
  (`SessionKeepsCatalogAndTheme`).
- A `LOAD_STATE` without a dark-mode flag picks the light theme even when the
  state's flag stays true (`LoadStateWithoutFlagDesynchronisesTheme`). The app
  dispatches `LOAD_STATE` only once, from the initial state, so the theme
  nevertheless stays in step with the flag for a whole session.

## Model

| member | source | states |
|---|---|---|
| `AppContext.AppReducer` | context/AppContext.tsx:85-135 | no contract of its own; its behaviour is stated by `AddTransactionPrepends`, `UpdateTransactionReplaces`, `DeleteTransactionRemoves`, `ToggleThemeFlips`, `LoadStateEffect`, `UnrecognisedActionIsNoop` and the invariant lemmas |
| `AppContext.Spread` | context/AppContext.tsx:126-128 | no contract of its own; its behaviour is stated by `LoadStateEffect` |
| `AppContext.ParseKey` | context/AppContext.tsx:175-196 | no contract of its own; its behaviour is stated by `StoredState` and `LoadKeysIndependent` |
| `AppContext.Dispatch` | context/AppContext.tsx:85-135 | no contract of its own; its behaviour is stated by `DispatchPreservesSessionInvariant` and `SessionKeepsCatalogAndTheme` |
| `AppContext.InitialStateFacts` | context/AppContext.tsx:51-76 | the initial state has no transactions, is loading, is light and not onboarded, has its theme in step with its flag, and has the 12-entry default catalog |
| `AppContext.DefaultCatalogKinds` | context/AppContext.tsx:51-67 | the default catalog has 12 entries: four income categories first, then eight expense categories |
| `AppContext.AddTransactionPrepends` | context/AppContext.tsx:87-91 | add makes the list one longer, puts the payload at its head, keeps the old list as its tail, and changes no other key |
| `AppContext.UpdateTransactionReplaces` | context/AppContext.tsx:92-98 | update keeps length and order; each record with the payload's id becomes the whole payload; every other record is unchanged; no other key changes |
| `AppContext.UpdateTransactionUnknownId` | context/AppContext.tsx:92-98 | an update whose id matches no record returns the state unchanged |
| `AppContext.DeleteTransactionRemoves` | context/AppContext.tsx:99-103 | after delete, no record has the id; every other record keeps its multiplicity; the result is a subsequence of the old list; no other key changes |
| `AppContext.DeleteTransactionIdempotent` | context/AppContext.tsx:99-103 | deleting the same id twice gives the same state as deleting it once |
| `AppContext.ToggleThemeFlips` | context/AppContext.tsx:109-114 | toggle negates the dark-mode flag, makes the theme dark exactly when the new flag is true, and changes nothing else |
| `AppContext.ToggleThemeTwice` | context/AppContext.tsx:109-114 | toggling twice restores the flag, and restores the whole state when its theme agreed with its flag |
| `AppContext.LoadStateEffect` | context/AppContext.tsx:125-131 | load-state always clears loading; the theme is dark exactly when the payload's flag is true, and light when the flag is absent; every other key present in the payload is taken and every absent key keeps its prior value |
| `AppContext.LoadStateWithoutFlagDesynchronisesTheme` | context/AppContext.tsx:125-131 | there is a dark state, with its theme in step, that a load-state without a flag leaves with a light theme and a true flag |
| `AppContext.ThemeConsistencyPreserved` | context/AppContext.tsx:85-135 | every action keeps the theme in step with the flag, except a load-state without a flag while dark mode is on |
| `AppContext.CategoriesChangeOnlyByLoadState` | context/AppContext.tsx:85-135 | the catalog changes only under a load-state whose payload carries categories |
| `AppContext.TransactionsChangeOnlyByTheirActions` | context/AppContext.tsx:85-135 | the list changes only under add, update, delete, set-all or load-state |
| `AppContext.UnrecognisedActionIsNoop` | context/AppContext.tsx:132-133 | an action of unknown kind returns the state unchanged |
| `AppContext.StoredState` | context/AppContext.tsx:173-203 | the load step's partial state has transactions exactly when the stored string is non-empty and parses to an array, and then holds that array; it has each flag exactly when its string is non-empty and parses, and then holds the truthiness of the parsed value; it never sets categories, theme or loading |
| `AppContext.LoadStoredData` | context/AppContext.tsx:157-212 | a failed read dispatches set-loading false; otherwise the load dispatches load-state |
| `AppContext.LoadKeysIndependent` | context/AppContext.tsx:175-203 | each key of the loaded partial state depends only on its own stored string, so a bad key never keeps another key from loading |
| `AppContext.LoadAlwaysEndsLoading` | context/AppContext.tsx:205-211 | whatever storage returns, loading ends and the catalog is untouched; the list is replaced only by a stored array |
| `AppContext.LoadFromInitialStateThemeConsistent` | context/AppContext.tsx:143-148 | the state right after start-up has its theme in step with its flag, whatever storage held |
| `AppContext.DispatchPreservesSessionInvariant` | context/AppContext.tsx:85-135 | any sequence of actions other than load-state keeps the default catalog and keeps the theme in step with the flag |
| `AppContext.SessionKeepsCatalogAndTheme` | context/AppContext.tsx:143-148 | start-up load followed by any actions other than load-state ends in a state with the default catalog and the theme in step with the flag |
| `TransactionContext.ApplyPatch` | contexts/TransactionContext.tsx:46 | no contract of its own; its behaviour is stated by `ApplyPatchLaws` and `UpdateTransactionMerges` |
| `TransactionContext.Updated` | contexts/TransactionContext.tsx:43-49 | no contract of its own; its behaviour is stated by `UpdateTransactionMerges` and `UpdateTransactionUnknownId` |
| `TransactionContext.Deleted` | contexts/TransactionContext.tsx:51-53 | no contract of its own; its behaviour is stated by `DeleteTransactionRemoves` |
| `TransactionContext.GetTotalBalance` | contexts/TransactionContext.tsx:57-63 | no contract of its own; its behaviour is stated by `BalanceIsIncomeMinusExpenses` and `PrependChangesTotals` |
| `TransactionContext.GetTotalIncome` | contexts/TransactionContext.tsx:65-69 | no contract of its own; its behaviour is stated by `PrependChangesTotals`, `PrependIncomeOrExpense` and `TotalsNonNegative` |
| `TransactionContext.GetTotalExpenses` | contexts/TransactionContext.tsx:71-75 | no contract of its own; its behaviour is stated by `PrependChangesTotals`, `PrependIncomeOrExpense` and `TotalsNonNegative` |
| `TransactionContext.GetTransactionsByMonth` | contexts/TransactionContext.tsx:77-82 | no contract of its own; its behaviour is stated by `TransactionsByMonthExact` |
| `TransactionContext.NewTransaction` | contexts/TransactionContext.tsx:34-39 | the new record carries the given id and creation time, and all other fields come from the input |
| `TransactionContext.TransactionProvider.constructor` | contexts/TransactionContext.tsx:19 | the provider starts with an empty list |
| `TransactionContext.TransactionProvider.AddTransaction` | contexts/TransactionContext.tsx:34-41 | the new list is the new record followed by the old list, and the balance moves by the record's signed amount |
| `TransactionContext.TransactionProvider.UpdateTransaction` | contexts/TransactionContext.tsx:43-49 | the new list is the old list with every record of that id merged with the patch; the length is kept |
| `TransactionContext.TransactionProvider.DeleteTransaction` | contexts/TransactionContext.tsx:51-53 | the new list is the old list without the records of that id, and no record with the id remains |
| `TransactionContext.TransactionProvider.ClearAllTransactions` | contexts/TransactionContext.tsx:55 | the list becomes empty, and balance, income and expenses are all 0 |
| `TransactionContext.AddTransactionPrepends` | contexts/TransactionContext.tsx:34-41 | adding makes the list one longer; its head has the new id and creation time and the supplied fields; its tail is the old list |
| `TransactionContext.UpdateTransactionMerges` | contexts/TransactionContext.tsx:43-49 | update keeps length and order; records with the id become the old record merged with the patch, and all others are unchanged |
| `TransactionContext.UpdateTransactionUnknownId` | contexts/TransactionContext.tsx:43-49 | an id that matches no record leaves the list unchanged |
| `TransactionContext.ApplyPatchLaws` | contexts/TransactionContext.tsx:46 | the merge with an empty patch is the record itself; merging the same patch twice is the same as once; a patch without `id` or `createdAt` keeps them |
| `TransactionContext.DeleteTransactionRemoves` | contexts/TransactionContext.tsx:51-53 | delete removes exactly the records with the id, keeps every other record's multiplicity and relative order, and is idempotent |
| `TransactionContext.PrependChangesTotals` | contexts/TransactionContext.tsx:57-75 | a record in front raises income or expenses by its amount, by its kind, and moves the balance by its signed amount |
| `TransactionContext.BalanceIsIncomeMinusExpenses` | contexts/TransactionContext.tsx:57-75 | for every list, the balance fold equals total income minus total expenses |
| `TransactionContext.PrependIncomeOrExpense` | contexts/TransactionContext.tsx:57-75 | prepending an income record raises income and balance by its amount and leaves expenses alone; an expense record raises expenses, lowers the balance and leaves income alone |
| `TransactionContext.TotalsNonNegative` | contexts/TransactionContext.tsx:65-75 | when every amount is positive, income and expenses are non-negative |
| `TransactionContext.TransactionsByMonthExact` | contexts/TransactionContext.tsx:77-82 | the by-month query is a subsequence of the list; it holds only records whose date decodes to that month and year, and holds each such record as often as the list does |
| `EditTransactionModal.OfferedCategories` | components/EditTransactionModal.tsx:46 | no contract of its own; its behaviour is stated by `OfferedCategoriesExact` and the two default-catalog lemmas |
| `EditTransactionModal.HandleSave` | components/EditTransactionModal.tsx:56-80 | save reports a missing field exactly when amount, description or category is empty; it reports an invalid amount exactly when the fields are filled and the amount does not parse or is at most 0; a saved record keeps the original's id and date, takes type, amount, category and description from the form, and has a positive amount and non-empty description and category |
| `EditTransactionModal.EditTransactionForm.constructor` | components/EditTransactionModal.tsx:32-35 | the form starts as an expense with empty amount, description and category |
| `EditTransactionModal.EditTransactionForm.LoadTransaction` | components/EditTransactionModal.tsx:37-44 | opening a record copies its type, amount text, description and category into the form; with no record the form is unchanged |
| `EditTransactionModal.EditTransactionForm.HandleTypeChange` | components/EditTransactionModal.tsx:82-85 | changing type sets the type, clears the selected category, and keeps amount and description |
| `EditTransactionModal.EditTransactionForm.SetAmount` | components/EditTransactionModal.tsx:167 | typing an amount changes only the amount field |
| `EditTransactionModal.EditTransactionForm.SetDescription` | components/EditTransactionModal.tsx:188 | typing a description changes only the description field |
| `EditTransactionModal.EditTransactionForm.SelectCategory` | components/EditTransactionModal.tsx:211 | pressing a category selects that category's id and changes nothing else |
| `EditTransactionModal.OfferedCategoriesExact` | components/EditTransactionModal.tsx:46 | the offered categories are a subsequence of the catalog, all of the form's type, and include every catalog entry of that type as often as the catalog does |
| `EditTransactionModal.OfferedDefaultIncomeCategories` | components/EditTransactionModal.tsx:46 | with the default catalog, income offers exactly its first four entries |
| `EditTransactionModal.OfferedDefaultExpenseCategories` | components/EditTransactionModal.tsx:46 | with the default catalog, expense offers exactly the remaining eight entries |
| `EditTransactionModal.SaveAfterTypeChangeRejected` | components/EditTransactionModal.tsx:82-85 | a save on the form right after a type change reports a missing field |
| `EditTransactionModal.SaveSucceedsIff` | components/EditTransactionModal.tsx:56-80 | save succeeds exactly when all three fields are filled, the amount parses to a positive number and a record is being edited |
| `EditTransactionModal.SaveUneditedIsIdentity` | components/EditTransactionModal.tsx:37-80 | opening a valid record and saving it unedited returns the same record, when its amount text parses back to its amount |
| `EditTransactionModal.OpenChangeTypeAndSave` | components/EditTransactionModal.tsx:37-85 | opening a record, changing its type and saving is always rejected for a missing field |
| `Sequences.Filter` | context/AppContext.tsx:102 | `filter` never lengthens a list, keeps only elements satisfying the predicate, keeps their order (a subsequence), and returns the list itself when every element satisfies the predicate |
| `Sequences.Map` | context/AppContext.tsx:95-96 | `map` keeps the length, and element `i` of the result is the callback applied to element `i` |

## Left out

- Storage I/O is not modelled: AsyncStorage and `localStorage` reads and writes, the save-on-change effects, `debugStorage` and `app/utils/storage.ts`. The load step takes the strings storage returned as input.
- The hook-based store's load-on-mount (`localStorage.getItem` followed by `JSON.parse`) is storage I/O and is not modelled.
- `JSON.parse`, `parseFloat`, `toString` and date decoding are foreign runtime calls. They are parameters, so the model says nothing about how they parse or format. `JSON.stringify` occurs only in the save-on-change effects, which are storage I/O and left out.
- `Date.now()` and `new Date()` read the clock. Their values are arguments, so the uniqueness of generated ids is not modelled.
- Amounts are reals, so floating-point rounding is not modelled. With JavaScript numbers, income minus expenses can differ from the balance fold in the last bits. A real is always finite, so infinite amounts (which `parseFloat` returns for `"Infinity"` or `"1e999"`, and which the save rule accepts) and the infinite or NaN totals they lead to are not modelled.
- `EditTransactionModal.HandleSave`: its `parseFloat` parameter yields only finite values or `None` (for NaN), so the case where the guard lets an infinite amount through is not covered by its contract.
- `AppContext.StoredState`: a parsed boolean key keeps only its truthiness. The source stores the raw parsed JSON value, but every reader in the core (`!`, `?:`) uses only its truthiness.
- An array parsed from storage is taken to hold transactions. The source does not check the shape of its elements, and neither does the model.
- A patch that sets a key explicitly to `undefined` is not modelled. A patch key is either absent or carries a value.
- React plumbing is not modelled: providers, `useApp`/`useTransactions`, and the `useReducer`/`useState` wiring. `Dispatch` stands for successive dispatches.
- `contexts/ThemeContext.tsx` and the theme colour values are presentation only. The two themes are opaque constants.
- `TransactionCategory` in `types/Transaction.ts` is not used by the core, so it is not modelled.
- Alerts, modal visibility, `onClose` and rendering are not modelled. `HandleSave` returns which alert or callback would happen.
