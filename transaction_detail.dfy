/**
 * The detail screen of one transaction: it shows the row with the screen's id, lets the user
 * edit its fields with per-field error flags, saves the edit over the row, or deletes the row.
 */
module TransactionDetail {
  import opened Wrappers
  import opened Text
  import opened FormFields
  import opened TransactionDao

  /**
   * The screen's state. The loaded `transaction` is the row itself (the screen's item type
   * copies exactly the row's fields).
   */
  datatype TransactionDetailUiState = TransactionDetailUiState(
    transaction: Option<Transaction>,
    isLoading: bool,
    error: Option<string>,
    isEditMode: bool,
    valueInCents: int,
    categoryQuery: string,
    isDropdownExpanded: bool,
    location: string,
    description: string,
    date: string,
    time: string,
    showDatePicker: bool,
    showTimePicker: bool,
    showDeleteConfirmation: bool,
    allCategories: seq<string>,
    hasValueError: bool,
    hasCategoryError: bool,
    hasLocationError: bool,
    hasDateTimeError: bool
  ) {
    function FormattedValue(): string {
      FormFields.FormattedValue(valueInCents)
    }

    function FilteredCategories(): seq<string> {
      FormFields.FilteredCategories(allCategories, categoryQuery)
    }

    predicate ShowCreateNewOption() {
      FormFields.ShowCreateNewOption(allCategories, categoryQuery)
    }
  }

  const DefaultState := TransactionDetailUiState(
    None, true, None, false, 0, "", false, "", "", "", "", false, false, false, [], false, false, false, false)

  /** `transactions.find { it.id == id }`: the first row with the id, if any. */
  function FindById(rows: seq<Transaction>, id: int): (r: Option<Transaction>)
    ensures r.Some? ==> r.value in rows && r.value.id == id
    ensures r.Some? ==> exists k :: 0 <= k < |rows| && rows[k] == r.value && forall j :: 0 <= j < k ==> rows[j].id != id
  {
    if rows == [] then None
    else if rows[0].id == id then Some(rows[0])
    else
      assert forall t :: t in rows[1..] ==> t in rows;
      var r := FindById(rows[1..], id);
      assert r.Some? ==> exists k :: 0 <= k < |rows| && rows[k] == r.value && forall j :: 0 <= j < k ==> rows[j].id != id by {
        if r.Some? {
          var k :| 0 <= k < |rows[1..]| && rows[1..][k] == r.value && forall j :: 0 <= j < k ==> rows[1..][j].id != id;
          assert rows[k + 1] == r.value && forall j :: 0 <= j < k + 1 ==> rows[j].id != id;
        }
      }
      r
  }

  /** The lookup fails exactly when no row carries the id. */
  lemma {:induction false} FindByIdFails(rows: seq<Transaction>, id: int)
    ensures FindById(rows, id).None? <==> !HasId(rows, id)
  {
    if rows != [] && rows[0].id != id {
      FindByIdFails(rows[1..], id);
      assert forall t :: t in rows && t != rows[0] ==> t in rows[1..];
      assert forall t :: t in rows[1..] ==> t in rows;
    }
  }

  /** With unique ids, the lookup over the listed rows finds exactly the row carrying the id. */
  lemma FindsTheRow(rows: seq<Transaction>, t: Transaction)
    requires UniqueIds(rows) && t in rows
    ensures FindById(GetAllTransactions(rows), t.id) == Some(t)
  {
    var listed := GetAllTransactions(rows);
    FindsNothing(rows, t.id);
    var found := FindById(listed, t.id);
    assert found.value in multiset(rows);
    var i :| 0 <= i < |rows| && rows[i] == t;
    var j :| 0 <= j < |rows| && rows[j] == found.value;
    if i != j {
      assert i < j ==> rows[i].id != rows[j].id;
      assert j < i ==> rows[j].id != rows[i].id;
    }
  }

  /** Over the listed rows, the lookup fails exactly when no row of the table carries the id. */
  lemma FindsNothing(rows: seq<Transaction>, id: int)
    ensures FindById(GetAllTransactions(rows), id).None? <==> !HasId(rows, id)
  {
    var listed := GetAllTransactions(rows);
    FindByIdFails(listed, id);
    forall t ensures t in listed <==> t in rows {
      assert t in listed <==> t in multiset(listed);
      assert t in rows <==> t in multiset(rows);
    }
  }

  /** The edit fields taken from a loaded row (`formatDate`, `formatTime` stand for the date formatters). */
  function Populated(st: TransactionDetailUiState, t: Transaction, formatDate: int -> string, formatTime: int -> string): TransactionDetailUiState {
    st.(transaction := Some(t), isLoading := false, error := None,
        valueInCents := t.value, categoryQuery := t.category, location := t.location,
        description := t.description, date := formatDate(t.date), time := formatTime(t.date))
  }

  /** The state once the lookup among the listed rows gave `found`. */
  function AfterFind(st: TransactionDetailUiState, found: Option<Transaction>,
                     formatDate: int -> string, formatTime: int -> string): TransactionDetailUiState {
    match found
    case Some(t) => Populated(st, t, formatDate, formatTime)
    case None => st.(transaction := None, isLoading := false, error := Some("Transaction not found"))
  }

  /** The state after one emission of the listed rows reaches `loadTransaction`. */
  function AfterLoad(st: TransactionDetailUiState, rows: seq<Transaction>, id: int,
                     formatDate: int -> string, formatTime: int -> string): TransactionDetailUiState {
    AfterFind(st, FindById(GetAllTransactions(rows), id), formatDate, formatTime)
  }

  /** A load shows no row, or the row carrying the id it looked for. */
  lemma AfterLoadShowsId(st: TransactionDetailUiState, rows: seq<Transaction>, id: int,
                         formatDate: int -> string, formatTime: int -> string)
    ensures var after := AfterLoad(st, rows, id, formatDate, formatTime);
      after.transaction.Some? ==> after.transaction.value.id == id
  {
    var found := FindById(GetAllTransactions(rows), id);
    if found.Some? {
      assert AfterLoad(st, rows, id, formatDate, formatTime).transaction == found;
    }
  }

  /** A load overwrites the loading flag and the error, so their earlier values do not matter. */
  lemma AfterFindOverwritesStatus(st: TransactionDetailUiState, found: Option<Transaction>,
                                  formatDate: int -> string, formatTime: int -> string)
    ensures AfterFind(st.(isLoading := true, error := None), found, formatDate, formatTime)
         == AfterFind(st, found, formatDate, formatTime)
  {
  }

  /**
   * Loading a table that holds the row shows that row, its fields in the edit fields and no
   * error; loading a table without it shows "Transaction not found" and no row.
   */
  lemma LoadShowsTheRow(st: TransactionDetailUiState, rows: seq<Transaction>, id: int,
                        formatDate: int -> string, formatTime: int -> string)
    requires UniqueIds(rows)
    ensures var after := AfterLoad(st, rows, id, formatDate, formatTime);
      && !after.isLoading
      && (HasId(rows, id) ==>
        && after.transaction.Some? && after.transaction.value in rows && after.transaction.value.id == id
        && after.error == None
        && after.valueInCents == after.transaction.value.value
        && after.categoryQuery == after.transaction.value.category
        && after.location == after.transaction.value.location
        && after.description == after.transaction.value.description
        && after.date == formatDate(after.transaction.value.date)
        && after.time == formatTime(after.transaction.value.date))
      && (!HasId(rows, id) ==> after == st.(transaction := None, isLoading := false, error := Some("Transaction not found")))
  {
    FindsNothing(rows, id);
    var found := FindById(GetAllTransactions(rows), id);
    if found.Some? {
      assert found.value in multiset(GetAllTransactions(rows));
      FindsTheRow(rows, found.value);
    }
  }

  /** The four validation flags of `saveTransaction`, set on the state. */
  function Flagged(st: TransactionDetailUiState): TransactionDetailUiState {
    st.(hasValueError := st.valueInCents <= 0,
        hasCategoryError := IsBlank(st.categoryQuery),
        hasLocationError := IsBlank(st.location),
        hasDateTimeError := IsBlank(st.date) || IsBlank(st.time))
  }

  predicate HasAnyError(st: TransactionDetailUiState) {
    st.hasValueError || st.hasCategoryError || st.hasLocationError || st.hasDateTimeError
  }

  /** The edited row: the screen's id, the amount, the parsed date and time, and trimmed texts. */
  function EditedRecord(st: TransactionDetailUiState, id: int, dateTime: int): (r: Transaction)
    ensures r.id == id && r.value == st.valueInCents && r.date == dateTime
    ensures r.category == [] <==> IsBlank(st.categoryQuery)
    ensures r.location == [] <==> IsBlank(st.location)
    ensures r.description == [] <==> IsBlank(st.description)
  {
    Transaction(id, st.valueInCents, dateTime, Trim(st.categoryQuery), Trim(st.location), Trim(st.description))
  }

  /** A form that passes the four checks saves a row with a positive amount and non-empty, trimmed texts. */
  lemma PassingFormSavesCleanRow(st: TransactionDetailUiState, id: int, dateTime: int)
    requires !HasAnyError(Flagged(st))
    ensures var t := EditedRecord(st, id, dateTime);
      && t.id == id && t.value > 0
      && t.category != [] && !IsWhitespace(t.category[0]) && !IsWhitespace(t.category[|t.category| - 1])
      && t.location != [] && !IsWhitespace(t.location[0]) && !IsWhitespace(t.location[|t.location| - 1])
  {
  }

  /** Every flag is false exactly when its field is acceptable. */
  lemma FlagsMatchFields(st: TransactionDetailUiState)
    ensures var f := Flagged(st);
      && (!HasAnyError(f) <==>
        st.valueInCents > 0 && !IsBlank(st.categoryQuery) && !IsBlank(st.location) && !IsBlank(st.date) && !IsBlank(st.time))
      && f.(hasValueError := st.hasValueError, hasCategoryError := st.hasCategoryError,
            hasLocationError := st.hasLocationError, hasDateTimeError := st.hasDateTimeError) == st
  {
  }

  /**
   * Saving over a table that holds the row replaces just that row with the edited one, and the
   * reload then shows the edited row with the trimmed texts in the edit fields.
   */
  lemma SaveThenReloadShowsEdit(st: TransactionDetailUiState, rows: seq<Transaction>, id: int, dateTime: int,
                                formatDate: int -> string, formatTime: int -> string)
    requires UniqueIds(rows) && HasId(rows, id)
    ensures var saved := EditedRecord(st, id, dateTime);
      var after := AfterLoad(st, ReplaceById(rows, saved), id, formatDate, formatTime);
      && UniqueIds(ReplaceById(rows, saved))
      && after.transaction == Some(saved)
      && after.categoryQuery == Trim(st.categoryQuery)
      && after.location == Trim(st.location)
      && after.description == Trim(st.description)
      && after.date == formatDate(dateTime)
  {
    var saved := EditedRecord(st, id, dateTime);
    ReplaceByIdKeepsKeys(rows, saved);
    FindsTheRow(ReplaceById(rows, saved), saved);
  }

  /** After a successful delete, reloading finds no row and reports "Transaction not found". */
  lemma DeleteThenReloadFindsNothing(st: TransactionDetailUiState, rows: seq<Transaction>, id: int,
                                     formatDate: int -> string, formatTime: int -> string)
    ensures AfterLoad(st, RemoveById(rows, id), id, formatDate, formatTime)
         == st.(transaction := None, isLoading := false, error := Some("Transaction not found"))
  {
    FindsNothing(RemoveById(rows, id), id);
  }

  class TransactionDetailViewModel {
    var state: TransactionDetailUiState
    const store: TransactionTable
    const transactionId: int
    /** The screen's "dd/MM/yyyy" and "HH:mm" formatters. */
    const formatDate: int -> string
    const formatTime: int -> string

    /** A loaded row is always the row with the screen's id. */
    ghost predicate Valid()
      reads this
    {
      state.transaction.Some? ==> state.transaction.value.id == transactionId
    }

    constructor (store: TransactionTable, transactionId: int, formatDate: int -> string, formatTime: int -> string)
      ensures this.store == store && this.transactionId == transactionId
      ensures this.formatDate == formatDate && this.formatTime == formatTime
      ensures state == DefaultState && Valid()
    {
      this.store := store;
      this.transactionId := transactionId;
      this.formatDate := formatDate;
      this.formatTime := formatTime;
      state := DefaultState;
    }

    /** One emission of `loadCategories`: the store's list (`None` when it throws) or the defaults. */
    method LoadCategories(categories: Option<seq<string>>)
      requires Valid()
      modifies this
      ensures Valid()
      ensures categories.Some? ==> state == old(state).(allCategories := CategoriesOrDefault(categories.value))
      ensures categories.None? ==> state == old(state).(allCategories := DefaultCategories)
    {
      match categories {
        case Some(cs) => state := state.(allCategories := CategoriesOrDefault(cs));
        case None => state := state.(allCategories := DefaultCategories);
      }
    }

    /** `loadTransaction`: the loading status, then one emission of the listed rows or the `failure` thrown. */
    method LoadTransaction(failure: Option<string>)
      requires Valid()
      modifies this
      ensures Valid()
      ensures failure.Some? ==>
        state == old(state).(isLoading := false, error := Some("Failed to load transaction: " + failure.value))
      ensures failure.None? ==> state == AfterLoad(old(state), store.rows, transactionId, formatDate, formatTime)
    {
      AfterFindOverwritesStatus(state, FindById(GetAllTransactions(store.rows), transactionId), formatDate, formatTime);
      state := state.(isLoading := true, error := None);
      if failure.Some? {
        state := state.(isLoading := false, error := Some("Failed to load transaction: " + failure.value));
      } else {
        OnTransactions();
        AfterLoadShowsId(old(state), store.rows, transactionId, formatDate, formatTime);
      }
    }

    /** The body of the `collect`: find the row with the screen's id among the listed rows. */
    method OnTransactions()
      modifies this
      ensures state == AfterLoad(old(state), store.rows, transactionId, formatDate, formatTime)
    {
      var transactions := GetAllTransactions(store.rows);
      var transaction := FindById(transactions, transactionId);
      match transaction {
        case Some(t) =>
          state := Populated(state, t, formatDate, formatTime);
        case None =>
          state := state.(transaction := None, isLoading := false, error := Some("Transaction not found"));
      }
    }

    /** Switching edit mode restores nothing. */
    method SetEditMode(enabled: bool)
      requires Valid()
      modifies this
      ensures Valid() && state == old(state).(isEditMode := enabled)
    {
      state := state.(isEditMode := enabled);
    }

    method UpdateValue(input: string)
      requires Valid()
      modifies this
      ensures Valid()
      ensures state == old(state).(valueInCents := DetailUpdatedCents(input, old(state.valueInCents)), hasValueError := false)
    {
      var cleanInput := Trim(RemoveChar(RemoveChar(RemoveChar(input, '.'), ','), '€'));
      var digitsOnly := FilterDigits(cleanInput);
      var newValue := CentsFromDigits(digitsOnly, state.valueInCents);
      state := state.(valueInCents := newValue, hasValueError := false);
    }

    method UpdateCategoryQuery(query: string)
      requires Valid()
      modifies this
      ensures Valid() && state == old(state).(categoryQuery := query, hasCategoryError := false)
    {
      state := state.(categoryQuery := query, hasCategoryError := false);
    }

    method SelectCategory(category: string)
      requires Valid()
      modifies this
      ensures Valid()
      ensures state == old(state).(categoryQuery := category, isDropdownExpanded := false, hasCategoryError := false)
    {
      state := state.(categoryQuery := category, isDropdownExpanded := false, hasCategoryError := false);
    }

    method SetDropdownExpanded(expanded: bool)
      requires Valid()
      modifies this
      ensures Valid() && state == old(state).(isDropdownExpanded := expanded)
    {
      state := state.(isDropdownExpanded := expanded);
    }

    method UpdateLocation(location: string)
      requires Valid()
      modifies this
      ensures Valid() && state == old(state).(location := location, hasLocationError := false)
    {
      state := state.(location := location, hasLocationError := false);
    }

    /** The description is not validated, so no flag is cleared. */
    method UpdateDescription(description: string)
      requires Valid()
      modifies this
      ensures Valid() && state == old(state).(description := description)
    {
      state := state.(description := description);
    }

    method UpdateDate(date: string)
      requires Valid()
      modifies this
      ensures Valid() && state == old(state).(date := date, hasDateTimeError := false)
    {
      state := state.(date := date, hasDateTimeError := false);
    }

    method UpdateTime(time: string)
      requires Valid()
      modifies this
      ensures Valid() && state == old(state).(time := time, hasDateTimeError := false)
    {
      state := state.(time := time, hasDateTimeError := false);
    }

    method SetShowDatePicker(show: bool)
      requires Valid()
      modifies this
      ensures Valid() && state == old(state).(showDatePicker := show)
    {
      state := state.(showDatePicker := show);
    }

    method SetShowTimePicker(show: bool)
      requires Valid()
      modifies this
      ensures Valid() && state == old(state).(showTimePicker := show)
    {
      state := state.(showTimePicker := show);
    }

    method SetShowDeleteConfirmation(show: bool)
      requires Valid()
      modifies this
      ensures Valid() && state == old(state).(showDeleteConfirmation := show)
    {
      state := state.(showDeleteConfirmation := show);
    }

    /**
     * With a loaded row: the edit fields return to the row's values, every flag is cleared, the
     * dropdown and pickers close and edit mode ends. Without one nothing changes.
     */
    method CancelEdit()
      requires Valid()
      modifies this
      ensures Valid()
      ensures old(state).transaction.None? ==> state == old(state)
      ensures old(state).transaction.Some? ==>
        var t := old(state).transaction.value;
        state == old(state).(isEditMode := false, valueInCents := t.value, categoryQuery := t.category,
                             location := t.location, description := t.description,
                             date := formatDate(t.date), time := formatTime(t.date),
                             hasValueError := false, hasCategoryError := false,
                             hasLocationError := false, hasDateTimeError := false,
                             isDropdownExpanded := false, showDatePicker := false, showTimePicker := false)
    {
      var transaction := state.transaction;
      if transaction.Some? {
        var t := transaction.value;
        state := state.(isEditMode := false, valueInCents := t.value, categoryQuery := t.category,
                        location := t.location, description := t.description,
                        date := formatDate(t.date), time := formatTime(t.date),
                        hasValueError := false, hasCategoryError := false,
                        hasLocationError := false, hasDateTimeError := false,
                        isDropdownExpanded := false, showDatePicker := false, showTimePicker := false);
      }
    }

    /**
     * `saveTransaction`. `dateTime` is the parsed date and time; `failure` is the exception the
     * parse or the update throws. The four flags are always set; with any of them set, or on a
     * failure, the table is untouched; otherwise the row with the screen's id is replaced by the
     * edited row, the screen reloads it and leaves edit mode.
     */
    method SaveTransaction(dateTime: int, failure: Option<string>)
      requires Valid() && store.Valid()
      modifies this, store
      ensures Valid() && store.Valid()
      ensures HasAnyError(Flagged(old(state))) ==> state == Flagged(old(state)) && unchanged(store)
      ensures !HasAnyError(Flagged(old(state))) && failure.Some? ==>
        state == Flagged(old(state)).(error := Some("Failed to save transaction: " + failure.value)) && unchanged(store)
      ensures !HasAnyError(Flagged(old(state))) && failure.None? ==>
        store.rows == ReplaceById(old(store.rows), EditedRecord(old(state), transactionId, dateTime))
      ensures !HasAnyError(Flagged(old(state))) && failure.None? ==>
        state == AfterLoad(Flagged(old(state)), store.rows, transactionId, formatDate, formatTime).(isEditMode := false)
    {
      var currentState := state;
      state := Flagged(currentState);
      if HasAnyError(state) {
        return;
      }
      if failure.Some? {
        state := state.(error := Some("Failed to save transaction: " + failure.value));
        return;
      }
      var updatedTransaction := EditedRecord(currentState, transactionId, dateTime);
      store.Update(updatedTransaction);
      LoadTransaction(None);
      state := state.(isEditMode := false);
    }

    /**
     * `deleteTransaction`, returning how often `onDeleteComplete` ran. Without a loaded row
     * nothing happens; a failed delete closes the confirmation and reports the error; a successful
     * one removes the row with the screen's id, closes the confirmation and runs the callback once.
     */
    method DeleteTransaction(failure: Option<string>) returns (callbacks: nat)
      requires Valid() && store.Valid()
      modifies this, store
      ensures Valid() && store.Valid()
      ensures old(state).transaction.None? ==> callbacks == 0 && unchanged(this, store)
      ensures old(state).transaction.Some? && failure.Some? ==>
        && callbacks == 0 && unchanged(store)
        && state == old(state).(showDeleteConfirmation := false, error := Some("Failed to delete transaction: " + failure.value))
      ensures old(state).transaction.Some? && failure.None? ==>
        && callbacks == 1
        && store.rows == RemoveById(old(store.rows), transactionId)
        && state == old(state).(showDeleteConfirmation := false)
    {
      var transaction := state.transaction;
      if transaction.None? {
        return 0;
      }
      if failure.Some? {
        state := state.(showDeleteConfirmation := false, error := Some("Failed to delete transaction: " + failure.value));
        return 0;
      }
      store.Delete(transaction.value);
      state := state.(showDeleteConfirmation := false);
      callbacks := 1;
    }
  }
}
