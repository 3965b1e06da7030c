/**
 * The "Add Health Check-up" screen: a trimmed guard on three fields, a record
 * tagged "health-checkup", appended under "healthCheckups".
 */
module AddHealthCheckup {
  import opened Wrappers
  import opened Records
  import opened JsText
  import opened RecordStore

  const Key := "healthCheckups"
  const Kind := "health-checkup"

  /**
   * The guard of the save: it rejects exactly when the name, the check-up
   * type or the frequency is whitespace only (`trim()` leaves it empty); the
   * optional fields play no part.
   */
  function MissingRequired(name: string, checkupType: string, reminderFrequency: string): (missing: bool)
    ensures missing <==> AllWhitespace(name) || AllWhitespace(checkupType) || AllWhitespace(reminderFrequency)
  {
    !Truthy(Trim(name)) || !Truthy(Trim(checkupType)) || !Truthy(Trim(reminderFrequency))
  }

  /** What every check-up the screen persists satisfies. */
  ghost predicate WellFormed(r: Record) {
    && r.HealthCheckup?
    && r.kind == Kind
    && !AllWhitespace(r.name) && !AllWhitespace(r.checkupType) && !AllWhitespace(r.reminderFrequency)
  }

  /**
   * The object literal the save builds from the form, always tagged
   * "health-checkup"; a form that passes the guard yields a well-formed one.
   */
  function NewCheckup(id: Id, name: string, checkupType: string, date: Instant, reminderFrequency: string,
                      doctorName: string, clinicLocation: string, notificationEnabled: bool,
                      notes: string): (r: Record)
    ensures r.HealthCheckup? && r.kind == Kind
    ensures !MissingRequired(name, checkupType, reminderFrequency) ==> WellFormed(r)
  {
    HealthCheckup(id, name, checkupType, date, reminderFrequency, doctorName, clinicLocation,
                  notificationEnabled, notes, Kind)
  }

  /** The alert the save shows. */
  function Alert(outcome: SaveOutcome): (message: string)
    ensures outcome.Saved? <==> message == "\U{1FA7A} Health Check-up reminder saved!"
  {
    match outcome
    case Rejected => "Please fill all required fields: name, check-up type, and frequency."
    case Saved => "\U{1FA7A} Health Check-up reminder saved!"
    case Failed(_) => "\U{274C} Error saving reminder"
  }

  /** All the screen's state variables at one moment. */
  datatype FormState = FormState(
    name: string, checkupType: string, date: Instant, hasSelectedDate: bool,
    reminderFrequency: string, doctorName: string, clinicLocation: string,
    notificationEnabled: bool, notes: string, showDatePicker: bool)

  /** The state the screen opens with at time `now`; `resetForm` returns to it. */
  function Initial(now: Instant): FormState {
    FormState("", "", now, false, "", "", "", true, "", false)
  }

  class CheckupForm {
    var name: string
    var checkupType: string
    var date: Instant
    var hasSelectedDate: bool
    var reminderFrequency: string
    var doctorName: string
    var clinicLocation: string
    var notificationEnabled: bool
    var notes: string
    var showDatePicker: bool

    ghost function State(): FormState
      reads this
    {
      FormState(name, checkupType, date, hasSelectedDate, reminderFrequency, doctorName,
                clinicLocation, notificationEnabled, notes, showDatePicker)
    }

    /** The screen opens dated `now`, which the record keeps unless a date is picked. */
    constructor (now: Instant)
      ensures State() == Initial(now)
    {
      name, checkupType, date, hasSelectedDate := "", "", now, false;
      reminderFrequency, doctorName, clinicLocation := "", "", "";
      notificationEnabled, notes, showDatePicker := true, "", false;
    }

    predicate Incomplete()
      reads this
    {
      MissingRequired(name, checkupType, reminderFrequency)
    }

    function Draft(id: Id): Record
      reads this
    {
      NewCheckup(id, name, checkupType, date, reminderFrequency, doctorName, clinicLocation,
                 notificationEnabled, notes)
    }

    /** The picker closes; only a supplied date replaces `date` and marks it selected. */
    method OnChangeDate(selected: Option<Instant>)
      modifies this
      ensures selected.None? ==> State() == old(State()).(showDatePicker := false)
      ensures selected.Some? ==>
                State() == old(State()).(showDatePicker := false, date := selected.value, hasSelectedDate := true)
    {
      showDatePicker := false;
      if selected.Some? {
        date := selected.value;
        hasSelectedDate := true;
      }
    }

    method OpenDatePicker()
      modifies this
      ensures State() == old(State()).(showDatePicker := true)
    {
      showDatePicker := true;
    }

    /** `resetForm`: the opening values at time `now`, the picker's visibility kept. */
    method ResetForm(now: Instant)
      modifies this
      ensures State() == Initial(now).(showDatePicker := old(showDatePicker))
    {
      name := "";
      checkupType := "";
      reminderFrequency := "";
      doctorName := "";
      clinicLocation := "";
      notificationEnabled := true;
      notes := "";
      date := now;
      hasSelectedDate := false;
    }

    /**
     * Validate, build the tagged record, append it; on success reset the form
     * (dated `now`), otherwise leave it as it was.
     */
    method SaveCheckup(store: Storage, id: Id, now: Instant, faults: Faults) returns (outcome: SaveOutcome)
      modifies this, store
      ensures outcome == Rejected <==> old(Incomplete())
      ensures outcome == Rejected ==> unchanged(this) && store.data == old(store.data)
      ensures !old(Incomplete()) ==>
                var spec := AppendSpec(old(store.data), Key, old(Draft(id)), faults);
                && (spec.Success? ==> outcome == Saved && store.data == spec.value)
                && (spec.Failure? ==> outcome == Failed(spec.error) && unchanged(this) && store.data == old(store.data))
      ensures outcome == Saved ==>
                && Load(store.data, Key) == Success(Load(old(store.data), Key).value + [old(Draft(id))])
                && WellFormed(old(Draft(id)))
                && State() == Initial(now).(showDatePicker := old(showDatePicker))
    {
      if Incomplete() {
        return Rejected;
      }
      var entry := Draft(id);
      ghost var before := store.data;
      var written := store.Append(Key, entry, faults);
      if written.Failure? {
        return Failed(written.error);
      }
      ResetForm(now);
      outcome := Saved;
    }
  }
}
