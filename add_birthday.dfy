/**
 * The "Add Birthday" screen: a trimmed name check, a record tagged
 * "birthday", appended under "birthdays".
 */
module AddBirthday {
  import opened Wrappers
  import opened Records
  import opened JsText
  import opened RecordStore

  const Key := "birthdays"
  const Kind := "birthday"

  /** The guard of the save: it rejects exactly the names that `trim()` leaves empty. */
  function MissingName(name: string): (missing: bool)
    ensures missing <==> AllWhitespace(name)
  {
    !Truthy(Trim(name))
  }

  /**
   * The object literal the save builds: `{id, name, date, type: 'birthday', notificationEnabled}`.
   * It always carries the birthday tag, and a name that passes the guard stays visible.
   */
  function NewBirthday(id: Id, name: string, date: Instant, notificationEnabled: bool): (r: Record)
    ensures r.Birthday? && r.kind == Kind
    ensures !MissingName(name) ==> !AllWhitespace(r.name)
  {
    Birthday(id, name, date, Kind, notificationEnabled)
  }

  /** The alert the save shows. */
  function Alert(outcome: SaveOutcome): (message: string)
    ensures outcome.Failed? <==> message == "\U{274C} Failed to save reminder"
  {
    match outcome
    case Rejected => "Please enter a name."
    case Saved => "\U{1F389} Birthday reminder saved!"
    case Failed(_) => "\U{274C} Failed to save reminder"
  }

  /** All the screen's state variables at one moment. */
  datatype FormState = FormState(name: string, date: Instant, hasSelectedDate: bool,
                                 showDatePicker: bool, notificationEnabled: bool)

  /** The state the screen opens with at time `now`. */
  function Initial(now: Instant): FormState {
    FormState("", now, false, false, true)
  }

  class BirthdayForm {
    var name: string
    var date: Instant
    var hasSelectedDate: bool
    var showDatePicker: bool
    var notificationEnabled: bool

    ghost function State(): FormState
      reads this
    {
      FormState(name, date, hasSelectedDate, showDatePicker, notificationEnabled)
    }

    constructor (now: Instant)
      ensures State() == Initial(now)
    {
      name, date, hasSelectedDate, showDatePicker, notificationEnabled := "", now, false, false, true;
    }

    function Draft(id: Id): Record
      reads this
    {
      NewBirthday(id, name, date, notificationEnabled)
    }

    /** The picker closes; only a supplied date replaces `date` and marks it selected. */
    method OnChangeDate(selected: Option<Instant>)
      modifies this
      ensures selected.None? ==> State() == old(State()).(showDatePicker := false)
      ensures selected.Some? ==>
                State() == old(State()).(showDatePicker := false, date := selected.value, hasSelectedDate := true)
    {
      showDatePicker := false;
      if selected.Some? {
        date := selected.value;
        hasSelectedDate := true;
      }
    }

    method OpenDatePicker()
      modifies this
      ensures State() == old(State()).(showDatePicker := true)
    {
      showDatePicker := true;
    }

    /** The reset after a successful save: empty name, dated `now`, nothing selected, notification on. */
    method ClearFields(now: Instant)
      modifies this
      ensures State() == Initial(now).(showDatePicker := old(showDatePicker))
    {
      name := "";
      date := now;
      hasSelectedDate := false;
      notificationEnabled := true;
    }

    /** Validate the name, append the tagged record; reset the form only on success. */
    method SaveBirthday(store: Storage, id: Id, now: Instant, faults: Faults) returns (outcome: SaveOutcome)
      modifies this, store
      ensures outcome == Rejected <==> old(MissingName(name))
      ensures outcome == Rejected ==> unchanged(this) && store.data == old(store.data)
      ensures !old(MissingName(name)) ==>
                var spec := AppendSpec(old(store.data), Key, old(Draft(id)), faults);
                && (spec.Success? ==> outcome == Saved && store.data == spec.value)
                && (spec.Failure? ==> outcome == Failed(spec.error) && unchanged(this) && store.data == old(store.data))
      ensures outcome == Saved ==>
                && Load(store.data, Key) == Success(Load(old(store.data), Key).value + [old(Draft(id))])
                && old(Draft(id)).kind == Kind && !AllWhitespace(old(Draft(id)).name)
                && State() == Initial(now).(showDatePicker := old(showDatePicker))
      ensures outcome == Saved && Key !in old(store.data) ==> Load(store.data, Key) == Success([old(Draft(id))])
    {
      if MissingName(name) {
        return Rejected;
      }
      var entry := Draft(id);
      ghost var before := store.data;
      ghost var spec := AppendSpec(before, Key, entry, faults);
      var written := store.Append(Key, entry, faults);
      if written.Failure? {
        assert spec.Failure? && store.data == before;
        return Failed(written.error);
      }
      assert spec.Success? && store.data == spec.value;
      assert Key !in before ==> Load(before, Key).value + [entry] == [entry];
      ClearFields(now);
      outcome := Saved;
    }
  }
}
