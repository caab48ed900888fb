/** The filter bar: the category select, the two date pickers and the error
    line, read off the store and turned into FILTER actions. */
module FilterView {
  import opened SaleTypes
  import opened Context

  /** The option that stands for "no category filter". */
  const AllOption: string := "All"

  /** `categoryOptions`: "All" first, then the store's categories in order. */
  function CategoryOptions(categories: seq<string>): (options: seq<string>)
    ensures |options| == |categories| + 1
    ensures options[0] == AllOption
    ensures forall i :: 0 <= i < |categories| ==> options[i + 1] == categories[i]
  {
    [AllOption] + categories
  }

  /** `handleCategoryChange`: "All" clears the category filter, any other
      option is dispatched verbatim; nothing but the category is written. */
  function CategoryChange(selected: string): (action: Action)
    ensures action.Filter? && Writes(action) == {FilterCategory}
    ensures action.patch.category.value == "" <==> selected == AllOption || selected == ""
    ensures selected == AllOption ==> action.patch == FilterPatch(Some(""), None, None)
    ensures selected != AllOption ==> action.patch == FilterPatch(Some(selected), None, None)
  {
    Filter(FilterPatch(Some(if selected == AllOption then "" else selected), None, None))
  }

  /** The two date pickers. */
  datatype Bound = StartDate | EndDate

  /** `handleDateChange`: a FILTER action whose payload holds only the key of
      the picker that changed. */
  function DateChange(date: Option<DateTime>, bound: Bound): (action: Action)
    ensures action.Filter?
    ensures Writes(action) == {if bound == StartDate then FilterStart else FilterEnd}
    ensures forall t :: Applied(action, t) <==>
              (if bound == StartDate then t.filter.startDate else t.filter.endDate) == date
  {
    match bound
    case StartDate => Filter(FilterPatch(None, Some(date), None))
    case EndDate => Filter(FilterPatch(None, None, Some(date)))
  }

  /** The select's value, `filter.category || "All"`. */
  function SelectValue(category: string): (shown: string)
    ensures shown != ""
    ensures category != "" ==> shown == category
    ensures shown == AllOption <==> category == "" || category == AllOption
  {
    if category != "" then category else AllOption
  }

  /** The error line, `error.sales || error.categories`: the sales error when
      there is one, else the categories error. */
  function ErrorMessage(error: ErrorState): (message: string)
    ensures message == "" <==> error.sales == "" && error.categories == ""
    ensures message == error.sales || message == error.categories
    ensures error.sales != "" ==> message == error.sales
  {
    if error.sales != "" then error.sales else error.categories
  }

  /** Selecting an option and dispatching it makes the select show that same
      option, for every non-empty option, "All" included. */
  lemma SelectionRoundTrip(state: Store, option: string)
    requires option != ""
    ensures SelectValue(Reducer(state, CategoryChange(option)).filter.category) == option
  {
  }

  /** Selecting the option the select shows leaves the store as it was,
      except when the filter holds a category literally named "All", which
      the select cannot tell apart from no filter. */
  lemma ShownSelectionIsNeutral(state: Store)
    ensures Reducer(state, CategoryChange(SelectValue(state.filter.category))) == state
        <==> state.filter.category != AllOption
  {
    var next := Reducer(state, CategoryChange(SelectValue(state.filter.category)));
    if state.filter.category == AllOption {
      assert next.filter.category == "";
    } else {
      ReducerIsDetermined(state, CategoryChange(SelectValue(state.filter.category)), state);
    }
  }

  /** Picking a date changes only that bound of the filter; the rest of the
      store is as it was. */
  lemma DateChangeWritesOneBound(state: Store, date: Option<DateTime>, bound: Bound)
    ensures Reducer(state, DateChange(date, bound))
         == if bound == StartDate then state.(filter := state.filter.(startDate := date))
            else state.(filter := state.filter.(endDate := date))
  {
    var t := if bound == StartDate then state.(filter := state.filter.(startDate := date))
             else state.(filter := state.filter.(endDate := date));
    ReducerIsDetermined(state, DateChange(date, bound), t);
  }
}
