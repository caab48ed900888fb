/** The client's state store: the `Store` record, its initial value and the
    reducer that answers each dispatched action with a new record. */
module Context {
  import opened SaleTypes

  /** A Luxon `DateTime` picked in the filter, as a time value in milliseconds. */
  type DateTime = int

  datatype Visibility = Hide | Show

  datatype FilterState = FilterState(category: string, startDate: Option<DateTime>, endDate: Option<DateTime>)

  datatype LoadingState = LoadingState(ui: bool, sales: bool, categories: bool)

  datatype ErrorState = ErrorState(sales: string, categories: string)

  datatype Store = Store(
    sales: seq<Sale>,
    categories: seq<string>,
    transition: Visibility,
    filter: FilterState,
    loading: LoadingState,
    error: ErrorState
  )

  /** The payload of a FILTER action: a partial filter object. A key that is
      present (`Some`) overwrites, a key that is absent keeps the old value. */
  datatype FilterPatch = FilterPatch(category: Option<string>,
                                     startDate: Option<Option<DateTime>>,
                                     endDate: Option<Option<DateTime>>)

  /** One constructor per `ActionType`, carrying the payload that type is
      dispatched with. TRANSITION is dispatched without a payload. */
  datatype Action =
    | LoadingUi(flag: bool)
    | LoadingSales(flag: bool)
    | LoadingCategories(flag: bool)
    | ErrorUi(message: string)
    | ErrorSales(message: string)
    | ErrorCategories(message: string)
    | Sales(list: seq<Sale>)
    | Categories(names: seq<string>)
    | Transition
    | Filter(patch: FilterPatch)

  /** `initialState`. */
  const InitialState: Store := Store(
    [], [], Hide,
    FilterState("", None, None),
    LoadingState(true, true, true),
    ErrorState("", ""))

  /** Every data-loading flag is up, the transition is hidden, the lists and
      messages are empty, and no filter is set. */
  lemma InitialStateShape()
    ensures InitialState.loading.ui && InitialState.loading.sales && InitialState.loading.categories
    ensures InitialState.transition == Hide
    ensures InitialState.sales == [] && InitialState.categories == []
    ensures InitialState.error.sales == "" && InitialState.error.categories == ""
    ensures InitialState.filter.category == ""
    ensures InitialState.filter.startDate.None? && InitialState.filter.endDate.None?
  {
  }

  // ---------------------------------------------------------------------
  // A field-by-field reading of the actions
  // ---------------------------------------------------------------------

  /** The leaf fields of a store record. */
  datatype Field =
    | SalesList | CategoryList | TransitionFlag
    | UiLoading | SalesLoading | CategoriesLoading
    | SalesError | CategoriesError
    | FilterCategory | FilterStart | FilterEnd

  /** Do two records agree on field `f`? */
  predicate SameAt(s: Store, t: Store, f: Field)
  {
    match f
    case SalesList => s.sales == t.sales
    case CategoryList => s.categories == t.categories
    case TransitionFlag => s.transition == t.transition
    case UiLoading => s.loading.ui == t.loading.ui
    case SalesLoading => s.loading.sales == t.loading.sales
    case CategoriesLoading => s.loading.categories == t.loading.categories
    case SalesError => s.error.sales == t.error.sales
    case CategoriesError => s.error.categories == t.error.categories
    case FilterCategory => s.filter.category == t.filter.category
    case FilterStart => s.filter.startDate == t.filter.startDate
    case FilterEnd => s.filter.endDate == t.filter.endDate
  }

  /** The fields an action may write: one per action, the keys present in a
      FILTER patch, none for ERROR_UI. */
  function Writes(a: Action): set<Field>
  {
    match a
    case LoadingUi(_) => {UiLoading}
    case LoadingSales(_) => {SalesLoading}
    case LoadingCategories(_) => {CategoriesLoading}
    case ErrorUi(_) => {}
    case ErrorSales(_) => {SalesError}
    case ErrorCategories(_) => {CategoriesError}
    case Sales(_) => {SalesList}
    case Categories(_) => {CategoryList}
    case Transition => {TransitionFlag}
    case Filter(p) =>
      (if p.category.Some? then {FilterCategory} else {})
      + (if p.startDate.Some? then {FilterStart} else {})
      + (if p.endDate.Some? then {FilterEnd} else {})
  }

  /** Does record `t` carry what action `a` asks for? */
  predicate Applied(a: Action, t: Store)
  {
    match a
    case LoadingUi(b) => t.loading.ui == b
    case LoadingSales(b) => t.loading.sales == b
    case LoadingCategories(b) => t.loading.categories == b
    case ErrorUi(_) => true
    case ErrorSales(m) => t.error.sales == m
    case ErrorCategories(m) => t.error.categories == m
    case Sales(xs) => t.sales == xs
    case Categories(cs) => t.categories == cs
    case Transition => t.transition == Show
    case Filter(p) =>
      && (p.category.Some? ==> t.filter.category == p.category.value)
      && (p.startDate.Some? ==> t.filter.startDate == p.startDate.value)
      && (p.endDate.Some? ==> t.filter.endDate == p.endDate.value)
  }

  // ---------------------------------------------------------------------
  // The reducer
  // ---------------------------------------------------------------------

  /** `reducer`: spread the old record and overwrite what the action names.
      The result carries the action's payload, and every field the action
      does not write is as before. */
  function Reducer(state: Store, action: Action): (r: Store)
    ensures Applied(action, r)
    ensures forall f :: f !in Writes(action) ==> SameAt(state, r, f)
  {
    match action
    case Sales(xs) => state.(sales := xs)
    case Categories(cs) => state.(categories := cs)
    case LoadingUi(b) => state.(loading := state.loading.(ui := b))
    case LoadingSales(b) => state.(loading := state.loading.(sales := b))
    case LoadingCategories(b) => state.(loading := state.loading.(categories := b))
    case Filter(p) =>
      state.(filter := FilterState(
        if p.category.Some? then p.category.value else state.filter.category,
        if p.startDate.Some? then p.startDate.value else state.filter.startDate,
        if p.endDate.Some? then p.endDate.value else state.filter.endDate))
    case ErrorCategories(m) => state.(error := state.error.(categories := m))
    case ErrorSales(m) => state.(error := state.error.(sales := m))
    case Transition => state.(transition := Show)
    case ErrorUi(_) => state
  }

  /** The field-by-field reading determines the reducer: any record that
      carries the action's payload and agrees with the old record on every
      field the action does not write is the reducer's result. */
  lemma ReducerIsDetermined(state: Store, action: Action, t: Store)
    requires Applied(action, t)
    requires forall f :: f !in Writes(action) ==> SameAt(state, t, f)
    ensures t == Reducer(state, action)
  {
    var r := Reducer(state, action);
    forall f: Field
      ensures SameAt(r, t, f)
    {
      if f !in Writes(action) {
        assert SameAt(state, t, f) && SameAt(state, r, f);
      }
    }
    SameEverywhere(r, t);
  }

  /** Two records that agree on every leaf field are the same record. */
  lemma SameEverywhere(s: Store, t: Store)
    requires forall f :: SameAt(s, t, f)
    ensures s == t
  {
    assert SameAt(s, t, SalesList) && SameAt(s, t, CategoryList) && SameAt(s, t, TransitionFlag);
    assert SameAt(s, t, UiLoading) && SameAt(s, t, SalesLoading) && SameAt(s, t, CategoriesLoading);
    assert SameAt(s, t, SalesError) && SameAt(s, t, CategoriesError);
    assert SameAt(s, t, FilterCategory) && SameAt(s, t, FilterStart) && SameAt(s, t, FilterEnd);
  }

  /** An action with nothing to write, ERROR_UI, leaves the record as it was. */
  lemma UnhandledActionIsIdentity(state: Store, message: string)
    ensures Reducer(state, ErrorUi(message)) == state
  {
    ReducerIsDetermined(state, ErrorUi(message), state);
  }

  /** The record after a sequence of dispatches. */
  function Run(state: Store, actions: seq<Action>): Store
    decreases |actions|
  {
    if actions == [] then state else Run(Reducer(state, actions[0]), actions[1..])
  }

  /** No action sets the transition back to "hide": once shown, it stays
      shown whatever is dispatched afterwards. */
  lemma {:induction false} ShownStaysShown(state: Store, actions: seq<Action>)
    requires state.transition == Show
    ensures Run(state, actions).transition == Show
    decreases |actions|
  {
    if actions != [] {
      var next := Reducer(state, actions[0]);
      assert actions[0] != Transition ==> TransitionFlag !in Writes(actions[0]);
      assert next.transition == Show;
      ShownStaysShown(next, actions[1..]);
    }
  }
}
