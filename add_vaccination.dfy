/**
 * The "Add Vaccination" screen: a guard that trims the name and the vaccine
 * but not the pickers' values, a record of the form's fields, appended under
 * "vaccinations".
 */
module AddVaccination {
  import opened Wrappers
  import opened Records
  import opened JsText
  import opened RecordStore

  const Key := "vaccinations"

  /**
   * The guard of the save; `kind` is the form's `type` picker.  It rejects
   * exactly when the name or the vaccine is whitespace only, no date is set,
   * or the type or the frequency is empty (those two are not trimmed).
   */
  function MissingRequired(name: string, vaccine: string, date: Option<Instant>, kind: string,
                           frequency: string): (missing: bool)
    ensures missing <==>
              AllWhitespace(name) || AllWhitespace(vaccine) || date == None || kind == "" || frequency == ""
  {
    !Truthy(Trim(name)) || !Truthy(Trim(vaccine)) || date.None? || !Truthy(kind) || !Truthy(frequency)
  }

  /** What every vaccination the screen persists satisfies. */
  ghost predicate WellFormed(r: Record) {
    && r.Vaccination?
    && !AllWhitespace(r.name) && !AllWhitespace(r.vaccine)
    && r.kind != "" && r.frequency != ""
  }

  /**
   * The object literal the save builds from the form, the date as its ISO
   * string; a form that passes the guard yields a well-formed record.
   */
  function NewVaccination(id: Id, name: string, vaccine: string, date: Instant, dose: string, kind: string,
                          doctor: string, location: string, notes: string, notificationEnabled: bool,
                          frequency: string): (r: Record)
    ensures r.Vaccination?
    ensures !MissingRequired(name, vaccine, Some(date), kind, frequency) ==> WellFormed(r)
  {
    Vaccination(id, name, vaccine, date, dose, kind, doctor, location, notes, notificationEnabled, frequency)
  }

  /** The alert the save shows; a storage failure is only logged. */
  function Alert(outcome: SaveOutcome): (message: Option<string>)
    ensures message.None? <==> outcome.Failed?
  {
    match outcome
    case Rejected => Some("Please fill all required fields.")
    case Saved => Some("\U{1F489} Vaccination saved!")
    case Failed(_) => None
  }

  /** All the screen's state variables at one moment. */
  datatype FormState = FormState(
    name: string, vaccine: string, date: Option<Instant>, showDatePicker: bool, dose: string,
    kind: string, doctor: string, location: string, notes: string, notificationEnabled: bool,
    frequency: string)

  /** The state the screen opens with. */
  const Initial := FormState("", "", None, false, "", "", "", "", "", true, "")

  class VaccinationForm {
    var name: string
    var vaccine: string
    var date: Option<Instant>
    var showDatePicker: bool
    var dose: string
    var kind: string
    var doctor: string
    var location: string
    var notes: string
    var notificationEnabled: bool
    var frequency: string

    ghost function State(): FormState
      reads this
    {
      FormState(name, vaccine, date, showDatePicker, dose, kind, doctor, location, notes,
                notificationEnabled, frequency)
    }

    constructor ()
      ensures State() == Initial
    {
      name, vaccine, date, showDatePicker := "", "", None, false;
      dose, kind, doctor, location, notes := "", "", "", "", "";
      notificationEnabled, frequency := true, "";
    }

    predicate Incomplete()
      reads this
    {
      MissingRequired(name, vaccine, date, kind, frequency)
    }

    function Draft(id: Id): Record
      reads this
      requires !Incomplete()
    {
      NewVaccination(id, name, vaccine, date.value, dose, kind, doctor, location, notes,
                     notificationEnabled, frequency)
    }

    /** The picker closes; only a supplied date replaces `date`. */
    method OnChangeDate(selected: Option<Instant>)
      modifies this
      ensures State() == old(State()).(showDatePicker := false,
                                       date := if selected.Some? then selected else old(date))
    {
      showDatePicker := false;
      if selected.Some? {
        date := selected;
      }
    }

    method OpenDatePicker()
      modifies this
      ensures State() == old(State()).(showDatePicker := true)
    {
      showDatePicker := true;
    }

    /** The reset after a successful save: every field but the date picker's visibility. */
    method ClearFields()
      modifies this
      ensures State() == Initial.(showDatePicker := old(showDatePicker))
    {
      name := "";
      vaccine := "";
      date := None;
      dose := "";
      kind := "";
      doctor := "";
      location := "";
      notes := "";
      notificationEnabled := true;
      frequency := "";
    }

    /** Validate, build the record, append it; reset the form only on success. */
    method SaveVaccination(store: Storage, id: Id, faults: Faults) returns (outcome: SaveOutcome)
      modifies this, store
      ensures outcome == Rejected <==> old(Incomplete())
      ensures outcome == Rejected ==> unchanged(this) && store.data == old(store.data)
      ensures !old(Incomplete()) ==>
                var spec := AppendSpec(old(store.data), Key, old(Draft(id)), faults);
                && (spec.Success? ==> outcome == Saved && store.data == spec.value)
                && (spec.Failure? ==> outcome == Failed(spec.error) && unchanged(this) && store.data == old(store.data))
      ensures outcome == Saved ==>
                && Load(store.data, Key) == Success(Load(old(store.data), Key).value + [old(Draft(id))])
                && WellFormed(old(Draft(id)))
                && State() == Initial.(showDatePicker := old(showDatePicker))
    {
      if Incomplete() {
        return Rejected;
      }
      var entry := Draft(id);
      ghost var before := store.data;
      var written := store.Append(Key, entry, faults);
      if written.Failure? {
        return Failed(written.error);
      }
      ClearFields();
      outcome := Saved;
    }
  }
}
