/** The reducer-based global store of `context/AppContext.tsx`: the state record,
    the actions, the reducer as a pure transition function, the initial state with
    its category catalog, and the decision logic of the start-up load. Storage reads,
    JSON parsing and the write-back effect are outside the model: the load step
    receives what storage returned and a parser as parameters. */
module AppContext {
  import opened Wrappers
  import opened Sequences
  import opened Types

  datatype AppState = AppState(
    transactions: seq<Transaction>,
    categories: seq<Category>,
    isDarkMode: bool,
    isOnboarded: bool,
    theme: Theme,
    isLoading: bool)

  /** `Partial<AppState>`: every key may be absent. */
  datatype PartialState = PartialState(
    transactions: Option<seq<Transaction>>,
    categories: Option<seq<Category>>,
    isDarkMode: Option<bool>,
    isOnboarded: Option<bool>,
    theme: Option<Theme>,
    isLoading: Option<bool>)

  const EmptyPartialState: PartialState := PartialState(None, None, None, None, None, None)

  /** The eight action kinds, and `Unrecognised` for an action object whose `type`
      tag is none of them (the reducer's `default` branch). */
  datatype AppAction =
    | AddTransaction(transaction: Transaction)
    | UpdateTransaction(transaction: Transaction)
    | DeleteTransaction(id: string)
    | SetTransactions(all: seq<Transaction>)
    | ToggleTheme
    | SetOnboarded(onboarded: bool)
    | LoadState(payload: PartialState)
    | SetLoading(loading: bool)
    | Unrecognised(tag: string)

  const DefaultCategories: seq<Category> := [
    Category("1", "Salary", "Briefcase", Income),
    Category("2", "Freelance", "Laptop", Income),
    Category("3", "Investment", "TrendingUp", Income),
    Category("4", "Other Income", "PlusCircle", Income),
    Category("5", "Food & Dining", "Utensils", Expense),
    Category("6", "Transportation", "Car", Expense),
    Category("7", "Shopping", "ShoppingBag", Expense),
    Category("8", "Entertainment", "Music", Expense),
    Category("9", "Bills & Utilities", "Zap", Expense),
    Category("10", "Healthcare", "Heart", Expense),
    Category("11", "Education", "Book", Expense),
    Category("12", "Other Expenses", "MoreHorizontal", Expense)
  ]

  /** The catalog lists the four income categories first, then the eight expense ones. */
  lemma DefaultCatalogKinds()
    ensures |DefaultCategories| == 12
    ensures forall i :: 0 <= i < 4 ==> DefaultCategories[i].kind == Income
    ensures forall i :: 4 <= i < 12 ==> DefaultCategories[i].kind == Expense
  {
  }

  const InitialState: AppState := AppState([], DefaultCategories, false, false, LightTheme, true)

  /** The active theme agrees with the dark-mode flag. */
  predicate ThemeConsistent(s: AppState) {
    (s.theme == DarkTheme) == s.isDarkMode
  }

  /** Object spread `{ ...state, ...payload }`: the keys present in the payload win. */
  function Spread(state: AppState, p: PartialState): AppState {
    AppState(
      if p.transactions.Some? then p.transactions.value else state.transactions,
      if p.categories.Some? then p.categories.value else state.categories,
      if p.isDarkMode.Some? then p.isDarkMode.value else state.isDarkMode,
      if p.isOnboarded.Some? then p.isOnboarded.value else state.isOnboarded,
      if p.theme.Some? then p.theme.value else state.theme,
      if p.isLoading.Some? then p.isLoading.value else state.isLoading)
  }

  /** The callback of the `map` in `UPDATE_TRANSACTION`. */
  function ReplaceIfSameId(payload: Transaction): Transaction -> Transaction {
    (t: Transaction) => if t.id == payload.id then payload else t
  }

  /** The callback of the `filter` in `DELETE_TRANSACTION`. */
  function HasOtherId(id: string): Transaction -> bool {
    (t: Transaction) => t.id != id
  }

  /** `appReducer`. */
  function AppReducer(state: AppState, action: AppAction): AppState {
    match action
    case AddTransaction(t) => state.(transactions := [t] + state.transactions)
    case UpdateTransaction(t) => state.(transactions := Map(state.transactions, ReplaceIfSameId(t)))
    case DeleteTransaction(id) => state.(transactions := Filter(state.transactions, HasOtherId(id)))
    case SetTransactions(ts) => state.(transactions := ts)
    case ToggleTheme =>
      state.(isDarkMode := !state.isDarkMode, theme := if !state.isDarkMode then DarkTheme else LightTheme)
    case SetOnboarded(b) => state.(isOnboarded := b)
    case SetLoading(b) => state.(isLoading := b)
    case LoadState(p) =>
      Spread(state, p).(theme := if p.isDarkMode == Some(true) then DarkTheme else LightTheme, isLoading := false)
    case Unrecognised(_) => state
  }

  /** Successive dispatches, as `useReducer` applies them. */
  function Dispatch(state: AppState, actions: seq<AppAction>): AppState
    decreases |actions|
  {
    if actions == [] then state else Dispatch(AppReducer(state, actions[0]), actions[1..])
  }

  // ---------------------------------------------------------------------------
  // The reducer, action by action

  lemma InitialStateFacts()
    ensures InitialState.transactions == [] && InitialState.isLoading
    ensures !InitialState.isDarkMode && !InitialState.isOnboarded
    ensures ThemeConsistent(InitialState)
    ensures |InitialState.categories| == 12
  {
  }

  /** `ADD_TRANSACTION` puts the payload in front and changes nothing else. */
  lemma AddTransactionPrepends(s: AppState, t: Transaction)
    ensures var r := AppReducer(s, AddTransaction(t));
      && |r.transactions| == |s.transactions| + 1
      && r.transactions[0] == t
      && r.transactions[1..] == s.transactions
      && r == s.(transactions := r.transactions)
  {
    var r := AppReducer(s, AddTransaction(t));
    assert r.transactions[1..] == s.transactions;
  }

  /** `UPDATE_TRANSACTION` keeps length and order, replaces every record with the
      payload's id by the whole payload, and leaves all other records alone. */
  lemma UpdateTransactionReplaces(s: AppState, t: Transaction)
    ensures var r := AppReducer(s, UpdateTransaction(t));
      && |r.transactions| == |s.transactions|
      && (forall i :: 0 <= i < |s.transactions| ==>
            r.transactions[i] == if s.transactions[i].id == t.id then t else s.transactions[i])
      && r == s.(transactions := r.transactions)
  {
  }

  /** An `UPDATE_TRANSACTION` whose id matches no record leaves the state unchanged. */
  lemma UpdateTransactionUnknownId(s: AppState, t: Transaction)
    requires forall i :: 0 <= i < |s.transactions| ==> s.transactions[i].id != t.id
    ensures AppReducer(s, UpdateTransaction(t)) == s
  {
    MapIdentity(s.transactions, ReplaceIfSameId(t));
  }

  /** `DELETE_TRANSACTION` leaves no record with the id, keeps every other record
      as often as it occurred, in the original order, and changes nothing else. */
  lemma DeleteTransactionRemoves(s: AppState, id: string)
    ensures var r := AppReducer(s, DeleteTransaction(id));
      && (forall i :: 0 <= i < |r.transactions| ==> r.transactions[i].id != id)
      && (forall t: Transaction :: t.id != id ==> multiset(r.transactions)[t] == multiset(s.transactions)[t])
      && (forall t: Transaction :: t.id == id ==> multiset(r.transactions)[t] == 0)
      && IsSubsequence(r.transactions, s.transactions)
      && r == s.(transactions := r.transactions)
  {
    var r := AppReducer(s, DeleteTransaction(id));
    forall t: Transaction
      ensures multiset(r.transactions)[t] == if t.id != id then multiset(s.transactions)[t] else 0
    {
      FilterCount(s.transactions, HasOtherId(id), t);
    }
  }

  /** Deleting the same id twice is the same as deleting it once. */
  lemma DeleteTransactionIdempotent(s: AppState, id: string)
    ensures AppReducer(AppReducer(s, DeleteTransaction(id)), DeleteTransaction(id))
         == AppReducer(s, DeleteTransaction(id))
  {
    FilterIdempotent(s.transactions, HasOtherId(id));
  }

  /** `TOGGLE_THEME` flips the flag, makes the theme agree with it, and touches nothing else. */
  lemma ToggleThemeFlips(s: AppState)
    ensures var r := AppReducer(s, ToggleTheme);
      && r.isDarkMode == !s.isDarkMode
      && (r.theme == DarkTheme <==> r.isDarkMode)
      && r == s.(isDarkMode := r.isDarkMode, theme := r.theme)
  {
  }

  /** Toggling twice restores the flag, and the whole state when its theme agreed with the flag. */
  lemma ToggleThemeTwice(s: AppState)
    ensures AppReducer(AppReducer(s, ToggleTheme), ToggleTheme).isDarkMode == s.isDarkMode
    ensures ThemeConsistent(s) ==> AppReducer(AppReducer(s, ToggleTheme), ToggleTheme) == s
  {
  }

  /** `LOAD_STATE` always ends loading, picks the dark theme exactly when the payload's
      flag is true (light when it is absent), takes every other key the payload has,
      and keeps the prior value of every key it lacks. */
  lemma LoadStateEffect(s: AppState, p: PartialState)
    ensures var r := AppReducer(s, LoadState(p));
      && !r.isLoading
      && (r.theme == DarkTheme <==> p.isDarkMode == Some(true))
      && (p.isDarkMode.None? ==> r.theme == LightTheme)
      && r.transactions == (if p.transactions.Some? then p.transactions.value else s.transactions)
      && r.categories == (if p.categories.Some? then p.categories.value else s.categories)
      && r.isDarkMode == (if p.isDarkMode.Some? then p.isDarkMode.value else s.isDarkMode)
      && r.isOnboarded == (if p.isOnboarded.Some? then p.isOnboarded.value else s.isOnboarded)
  {
  }

  /** A `LOAD_STATE` without a dark-mode flag switches to the light theme even when
      the state's flag stays true: the reducer alone does not keep theme and flag in step. */
  lemma LoadStateWithoutFlagDesynchronisesTheme()
    ensures var s := InitialState.(isDarkMode := true, theme := DarkTheme);
      ThemeConsistent(s) && !ThemeConsistent(AppReducer(s, LoadState(EmptyPartialState)))
  {
  }

  /** Every action keeps theme and flag in step, except a `LOAD_STATE` without a flag
      arriving while dark mode is on. */
  lemma ThemeConsistencyPreserved(s: AppState, a: AppAction)
    requires ThemeConsistent(s)
    requires a.LoadState? ==> a.payload.isDarkMode.Some? || !s.isDarkMode
    ensures ThemeConsistent(AppReducer(s, a))
  {
  }

  /** Only a `LOAD_STATE` carrying categories changes the catalog. */
  lemma CategoriesChangeOnlyByLoadState(s: AppState, a: AppAction)
    ensures AppReducer(s, a).categories != s.categories ==> a.LoadState? && a.payload.categories.Some?
  {
  }

  /** Only the four transaction actions and `LOAD_STATE` change the transaction list. */
  lemma TransactionsChangeOnlyByTheirActions(s: AppState, a: AppAction)
    ensures AppReducer(s, a).transactions != s.transactions ==>
      a.AddTransaction? || a.UpdateTransaction? || a.DeleteTransaction? || a.SetTransactions? || a.LoadState?
  {
  }

  /** An action of unknown kind returns the state unchanged. */
  lemma UnrecognisedActionIsNoop(s: AppState, tag: string)
    ensures AppReducer(s, Unrecognised(tag)) == s
  {
  }

  // ---------------------------------------------------------------------------
  // The start-up load

  /** What `JSON.parse` returned, as far as the load step tells values apart: an
      array (taken to hold transactions, as the source does without checking),
      a boolean, or any other JSON value together with its JavaScript truthiness. */
  datatype Parsed = ParsedArray(items: seq<Transaction>) | ParsedBoolean(b: bool) | ParsedOther(truthy: bool)

  /** JavaScript truthiness of a parsed value; an array is always truthy. */
  function Truthy(v: Parsed): bool {
    match v
    case ParsedArray(_) => true
    case ParsedBoolean(b) => b
    case ParsedOther(t) => t
  }

  /** The outcome of the three parallel storage reads: either they all resolved
      (each to a string or `null`) or the combined read rejected. */
  datatype StoredData =
    | ReadFailed
    | ReadDone(transactionsData: Option<string>, themeData: Option<string>, onboardedData: Option<string>)

  /** One key's guarded parse: nothing for `null` or the (falsy) empty string,
      nothing when `JSON.parse` throws (`jsonParse` gives `None`). */
  function ParseKey(data: Option<string>, jsonParse: string -> Option<Parsed>): Option<Parsed> {
    if data.Some? && data.value != "" then jsonParse(data.value) else None
  }

  /** The partial state the load step builds key by key (`storedState`). */
  function StoredState(
    transactionsData: Option<string>, themeData: Option<string>, onboardedData: Option<string>,
    jsonParse: string -> Option<Parsed>): (p: PartialState)
    ensures p.categories.None? && p.theme.None? && p.isLoading.None?
    ensures p.transactions.Some? <==>
      transactionsData.Some? && transactionsData.value != "" &&
      jsonParse(transactionsData.value).Some? && jsonParse(transactionsData.value).value.ParsedArray?
    ensures p.transactions.Some? ==> p.transactions.value == jsonParse(transactionsData.value).value.items
    ensures p.isDarkMode.Some? <==>
      themeData.Some? && themeData.value != "" && jsonParse(themeData.value).Some?
    ensures p.isDarkMode.Some? ==> p.isDarkMode.value == Truthy(jsonParse(themeData.value).value)
    ensures p.isOnboarded.Some? <==>
      onboardedData.Some? && onboardedData.value != "" && jsonParse(onboardedData.value).Some?
    ensures p.isOnboarded.Some? ==> p.isOnboarded.value == Truthy(jsonParse(onboardedData.value).value)
  {
    var tx := ParseKey(transactionsData, jsonParse);
    var theme := ParseKey(themeData, jsonParse);
    var onboarded := ParseKey(onboardedData, jsonParse);
    PartialState(
      if tx.Some? && tx.value.ParsedArray? then Some(tx.value.items) else None,
      None,
      if theme.Some? then Some(Truthy(theme.value)) else None,
      if onboarded.Some? then Some(Truthy(onboarded.value)) else None,
      None,
      None)
  }

  /** `loadStoredData`: the single action it dispatches. */
  function LoadStoredData(stored: StoredData, jsonParse: string -> Option<Parsed>): (a: AppAction)
    ensures stored.ReadFailed? ==> a == SetLoading(false)
    ensures stored.ReadDone? ==> a.LoadState?
  {
    match stored
    case ReadFailed => SetLoading(false)
    case ReadDone(tx, theme, onboarded) => LoadState(StoredState(tx, theme, onboarded, jsonParse))
  }

  /** Each key is decided from its own stored string only: a missing or unparseable
      key never keeps another key from loading. */
  lemma LoadKeysIndependent(
    tx1: Option<string>, theme1: Option<string>, onboarded1: Option<string>,
    tx2: Option<string>, theme2: Option<string>, onboarded2: Option<string>,
    jsonParse: string -> Option<Parsed>)
    ensures tx1 == tx2 ==>
      StoredState(tx1, theme1, onboarded1, jsonParse).transactions == StoredState(tx2, theme2, onboarded2, jsonParse).transactions
    ensures theme1 == theme2 ==>
      StoredState(tx1, theme1, onboarded1, jsonParse).isDarkMode == StoredState(tx2, theme2, onboarded2, jsonParse).isDarkMode
    ensures onboarded1 == onboarded2 ==>
      StoredState(tx1, theme1, onboarded1, jsonParse).isOnboarded == StoredState(tx2, theme2, onboarded2, jsonParse).isOnboarded
  {
  }

  /** Whatever storage returns, loading ends and the catalog is untouched; the stored
      transactions replace the list only when they parsed to an array. */
  lemma LoadAlwaysEndsLoading(s: AppState, stored: StoredData, jsonParse: string -> Option<Parsed>)
    ensures var r := AppReducer(s, LoadStoredData(stored, jsonParse));
      && !r.isLoading
      && r.categories == s.categories
      && r.transactions ==
           (if stored.ReadDone? && ParseKey(stored.transactionsData, jsonParse).Some?
               && ParseKey(stored.transactionsData, jsonParse).value.ParsedArray?
            then ParseKey(stored.transactionsData, jsonParse).value.items
            else s.transactions)
  {
  }

  /** The theme agrees with the flag right after start-up, whatever storage held. */
  lemma LoadFromInitialStateThemeConsistent(stored: StoredData, jsonParse: string -> Option<Parsed>)
    ensures ThemeConsistent(AppReducer(InitialState, LoadStoredData(stored, jsonParse)))
  {
  }

  // ---------------------------------------------------------------------------
  // A whole session

  /** What holds of every state of a session after start-up. */
  predicate SessionInvariant(s: AppState) {
    ThemeConsistent(s) && s.categories == DefaultCategories
  }

  lemma {:induction false} DispatchPreservesSessionInvariant(s: AppState, actions: seq<AppAction>)
    requires SessionInvariant(s)
    requires forall i :: 0 <= i < |actions| ==> !actions[i].LoadState?
    ensures SessionInvariant(Dispatch(s, actions))
    decreases |actions|
  {
    if actions != [] {
      ThemeConsistencyPreserved(s, actions[0]);
      CategoriesChangeOnlyByLoadState(s, actions[0]);
      DispatchPreservesSessionInvariant(AppReducer(s, actions[0]), actions[1..]);
    }
  }

  /** Start-up load followed by any actions other than `LOAD_STATE` keeps the default
      catalog and keeps the theme in step with the flag. */
  lemma SessionKeepsCatalogAndTheme(stored: StoredData, jsonParse: string -> Option<Parsed>, actions: seq<AppAction>)
    requires forall i :: 0 <= i < |actions| ==> !actions[i].LoadState?
    ensures SessionInvariant(Dispatch(InitialState, [LoadStoredData(stored, jsonParse)] + actions))
  {
    var load := LoadStoredData(stored, jsonParse);
    var all := [load] + actions;
    assert all[0] == load && all[1..] == actions;
    var afterLoad := AppReducer(InitialState, load);
    LoadFromInitialStateThemeConsistent(stored, jsonParse);
    LoadAlwaysEndsLoading(InitialState, stored, jsonParse);
    assert SessionInvariant(afterLoad);
    DispatchPreservesSessionInvariant(afterLoad, actions);
  }
}
