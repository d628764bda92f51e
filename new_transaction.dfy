/**
 * The new-transaction form: an amount typed as digits, a category picked from suggestions or
 * typed anew, a location, a date and a time; saving inserts one row and resets the form.
 */
module NewTransaction {
  import opened Wrappers
  import opened Text
  import opened FormFields
  import opened TransactionDao

  datatype NewTransactionUiState = NewTransactionUiState(
    valueInCents: int,
    categoryQuery: string,
    isDropdownExpanded: bool,
    location: string,
    date: string,
    time: string,
    showConfirmationDialog: bool,
    showDatePicker: bool,
    showTimePicker: bool,
    allCategories: seq<string>
  ) {
    function FormattedValue(): string {
      FormFields.FormattedValue(valueInCents)
    }

    function FilteredCategories(): seq<string> {
      FormFields.FilteredCategories(allCategories, categoryQuery)
    }

    predicate ShowCreateNewOption() {
      FormFields.ShowCreateNewOption(allCategories, categoryQuery)
    }
  }

  /** `NewTransactionUiState()`: an empty form offering the six default categories. */
  const DefaultState := NewTransactionUiState(0, "", false, "", "", "", false, false, false, DefaultCategories)

  /** The form is saved only with a positive amount and a non-blank category; location and date are not checked. */
  predicate CanSave(st: NewTransactionUiState) {
    st.valueInCents > 0 && !IsBlank(st.categoryQuery)
  }

  /** The row `saveTransaction` inserts: a fresh id, trimmed category and location, no description. */
  function NewRecord(st: NewTransactionUiState, dateTime: int): (r: Transaction)
    ensures r.id == 0 && r.value == st.valueInCents && r.date == dateTime && r.description == ""
    ensures r.category == [] <==> IsBlank(st.categoryQuery)
    ensures r.location == [] <==> IsBlank(st.location)
  {
    Transaction(0, st.valueInCents, dateTime, Trim(st.categoryQuery), Trim(st.location), "")
  }

  /** A record built from a form that may be saved has a non-blank category with no surrounding whitespace. */
  lemma SavedCategoryIsClean(st: NewTransactionUiState, dateTime: int)
    requires CanSave(st)
    ensures var t := NewRecord(st, dateTime);
      && t.value > 0
      && t.category != []
      && !IsWhitespace(t.category[0]) && !IsWhitespace(t.category[|t.category| - 1])
  {
  }

  class NewTransactionViewModel {
    var state: NewTransactionUiState
    const store: TransactionTable

    /** Typed amounts stay within eight digits. */
    ghost predicate Valid()
      reads this
    {
      0 <= state.valueInCents < MaxCents
    }

    constructor (store: TransactionTable)
      ensures this.store == store && state == DefaultState && Valid()
    {
      this.store := store;
      state := DefaultState;
    }

    /** One emission of the store's category list; an empty list keeps the six defaults. */
    method OnCategoriesLoaded(categories: seq<string>)
      requires Valid()
      modifies this
      ensures Valid()
      ensures state == old(state).(allCategories := CategoriesOrDefault(categories))
    {
      var finalCategories := if categories == [] then DefaultCategories else categories;
      state := state.(allCategories := finalCategories);
    }

    method UpdateValue(input: string)
      requires Valid()
      modifies this
      ensures Valid()
      ensures state == old(state).(valueInCents := UpdatedCents(input, old(state.valueInCents)))
    {
      var cleanInput := RemoveChar(RemoveChar(input, '.'), ',');
      var digitsOnly := FilterDigits(cleanInput);
      var newValue := CentsFromDigits(digitsOnly, state.valueInCents);
      state := state.(valueInCents := newValue);
    }

    method UpdateCategoryQuery(query: string)
      requires Valid()
      modifies this
      ensures Valid() && state == old(state).(categoryQuery := query)
    {
      state := state.(categoryQuery := query);
    }

    method SetDropdownExpanded(expanded: bool)
      requires Valid()
      modifies this
      ensures Valid() && state == old(state).(isDropdownExpanded := expanded)
    {
      state := state.(isDropdownExpanded := expanded);
    }

    /** Picking a suggestion fills the query and closes the dropdown. */
    method SelectCategory(category: string)
      requires Valid()
      modifies this
      ensures Valid() && state == old(state).(categoryQuery := category, isDropdownExpanded := false)
    {
      state := state.(categoryQuery := category, isDropdownExpanded := false);
    }

    method UpdateLocation(location: string)
      requires Valid()
      modifies this
      ensures Valid() && state == old(state).(location := location)
    {
      state := state.(location := location);
    }

    /** `setCurrentDateTime`, with the clock's date and time already formatted. */
    method SetCurrentDateTime(date: string, time: string)
      requires Valid()
      modifies this
      ensures Valid() && state == old(state).(date := date, time := time)
    {
      state := state.(date := date, time := time);
    }

    method ShowConfirmationDialog()
      requires Valid()
      modifies this
      ensures Valid() && state == old(state).(showConfirmationDialog := true)
    {
      state := state.(showConfirmationDialog := true);
    }

    method HideConfirmationDialog()
      requires Valid()
      modifies this
      ensures Valid() && state == old(state).(showConfirmationDialog := false)
    {
      state := state.(showConfirmationDialog := false);
    }

    method ShowDatePicker()
      requires Valid()
      modifies this
      ensures Valid() && state == old(state).(showDatePicker := true)
    {
      state := state.(showDatePicker := true);
    }

    method HideDatePicker()
      requires Valid()
      modifies this
      ensures Valid() && state == old(state).(showDatePicker := false)
    {
      state := state.(showDatePicker := false);
    }

    /** A picked date also closes the date picker. */
    method UpdateDate(date: string)
      requires Valid()
      modifies this
      ensures Valid() && state == old(state).(date := date, showDatePicker := false)
    {
      state := state.(date := date, showDatePicker := false);
    }

    method ShowTimePicker()
      requires Valid()
      modifies this
      ensures Valid() && state == old(state).(showTimePicker := true)
    {
      state := state.(showTimePicker := true);
    }

    method HideTimePicker()
      requires Valid()
      modifies this
      ensures Valid() && state == old(state).(showTimePicker := false)
    {
      state := state.(showTimePicker := false);
    }

    /** A picked time also closes the time picker. */
    method UpdateTime(time: string)
      requires Valid()
      modifies this
      ensures Valid() && state == old(state).(time := time, showTimePicker := false)
    {
      state := state.(time := time, showTimePicker := false);
    }

    /**
     * `saveTransaction`. `dateTime` is the parsed date and time (or the clock's time when they are
     * unset or unparsable); `storeFails` says whether the insert throws. An invalid form, or a failed
     * insert, changes nothing; a successful one appends exactly one row under a fresh id and resets
     * the form to its defaults.
     */
    method SaveTransaction(dateTime: int, storeFails: bool)
      requires Valid() && store.Valid()
      modifies this, store
      ensures Valid() && store.Valid()
      ensures !CanSave(old(state)) || storeFails ==>
        unchanged(this, store)
      ensures CanSave(old(state)) && !storeFails ==> state == DefaultState
      ensures CanSave(old(state)) && !storeFails ==> store.lastId == old(store.lastId) + 1
      ensures CanSave(old(state)) && !storeFails ==>
        store.rows == old(store.rows) + [NewRecord(old(state), dateTime).(id := store.lastId)]
    {
      var currentState := state;
      if currentState.valueInCents <= 0 || IsBlank(currentState.categoryQuery) {
        return;
      }
      var transaction := NewRecord(currentState, dateTime);
      if !storeFails {
        var _ := store.Insert(transaction);
        state := DefaultState;
      }
    }
  }
}
