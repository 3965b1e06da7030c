/**
 * The "Add Anniversary" screen: a trimmed name check, a record tagged
 * "anniversary", appended under "anniversaries".
 */
module AddAnniversary {
  import opened Wrappers
  import opened Records
  import opened JsText
  import opened RecordStore

  const Key := "anniversaries"
  const Kind := "anniversary"

  /** The guard of the save: it rejects exactly the names that `trim()` leaves empty. */
  function MissingName(name: string): (missing: bool)
    ensures missing <==> AllWhitespace(name)
  {
    !Truthy(Trim(name))
  }

  /**
   * The object literal the save builds: `{id, name, date, type: 'anniversary', notificationEnabled}`.
   * It always carries the anniversary tag, and a name that passes the guard stays visible.
   */
  function NewAnniversary(id: Id, name: string, date: Instant, notificationEnabled: bool): (r: Record)
    ensures r.Anniversary? && r.kind == Kind
    ensures !MissingName(name) ==> !AllWhitespace(r.name)
  {
    Anniversary(id, name, date, Kind, notificationEnabled)
  }

  /** The alert the save shows. */
  function Alert(outcome: SaveOutcome): (message: string)
    ensures outcome.Failed? <==> message == "\U{274C} Failed to save reminder"
  {
    match outcome
    case Rejected => "Please enter a couple's name."
    case Saved => "\U{1F38A} Anniversary saved!"
    case Failed(_) => "\U{274C} Failed to save reminder"
  }

  /** All the screen's state variables at one moment. */
  datatype FormState = FormState(name: string, date: Instant, hasSelectedDate: bool,
                                 showDatePicker: bool, notificationEnabled: bool)

  /** The state the screen opens with at time `now`. */
  function Initial(now: Instant): FormState {
    FormState("", now, false, false, true)
  }

  class AnniversaryForm {
    var name: string
    var date: Instant
    var hasSelectedDate: bool
    var showDatePicker: bool
    var notificationEnabled: bool

    ghost function State(): FormState
      reads this
    {
      FormState(name, date, hasSelectedDate, showDatePicker, notificationEnabled)
    }

    constructor (now: Instant)
      ensures State() == Initial(now)
    {
      name, date, hasSelectedDate, showDatePicker, notificationEnabled := "", now, false, false, true;
    }

    function Draft(id: Id): Record
      reads this
    {
      NewAnniversary(id, name, date, notificationEnabled)
    }

    /** The picker closes; only a supplied date replaces `date` and marks it selected. */
    method OnChangeDate(selected: Option<Instant>)
      modifies this
      ensures selected.None? ==> State() == old(State()).(showDatePicker := false)
      ensures selected.Some? ==>
                State() == old(State()).(showDatePicker := false, date := selected.value, hasSelectedDate := true)
    {
      showDatePicker := false;
      if selected.Some? {
        date := selected.value;
        hasSelectedDate := true;
      }
    }

    method OpenDatePicker()
      modifies this
      ensures State() == old(State()).(showDatePicker := true)
    {
      showDatePicker := true;
    }

    /** `resetForm`: empty name, dated `now`, nothing selected, notification on. */
    method ResetForm(now: Instant)
      modifies this
      ensures State() == Initial(now).(showDatePicker := old(showDatePicker))
    {
      name := "";
      date := now;
      hasSelectedDate := false;
      notificationEnabled := true;
    }

    /** Validate the name, append the tagged record; reset the form only on success. */
    method SaveAnniversary(store: Storage, id: Id, now: Instant, faults: Faults) returns (outcome: SaveOutcome)
      modifies this, store
      ensures outcome == Rejected <==> old(MissingName(name))
      ensures outcome == Rejected ==> unchanged(this) && store.data == old(store.data)
      ensures !old(MissingName(name)) ==>
                var spec := AppendSpec(old(store.data), Key, old(Draft(id)), faults);
                && (spec.Success? ==> outcome == Saved && store.data == spec.value)
                && (spec.Failure? ==> outcome == Failed(spec.error) && unchanged(this) && store.data == old(store.data))
      ensures outcome == Saved ==>
                && Load(store.data, Key) == Success(Load(old(store.data), Key).value + [old(Draft(id))])
                && old(Draft(id)).kind == Kind && !AllWhitespace(old(Draft(id)).name)
                && State() == Initial(now).(showDatePicker := old(showDatePicker))
    {
      if MissingName(name) {
        return Rejected;
      }
      var entry := Draft(id);
      ghost var before := store.data;
      var written := store.Append(Key, entry, faults);
      if written.Failure? {
        return Failed(written.error);
      }
      ResetForm(now);
      outcome := Saved;
    }
  }
}
