/**
 * The "Add Medicine Reminder" screen: its form state, the handlers that keep
 * the reminder-time slots in step with the times-per-day choice, and the save
 * that validates, builds a record and appends it under "medicine_reminders".
 */
module AddMedicine {
  import opened Wrappers
  import opened Records
  import opened JsText
  import opened RecordStore

  const Key := "medicine_reminders"

  /** The values the times-per-day picker offers: 1, 2, 3 or 4. */
  predicate IsTimesChoice(n: int) {
    1 <= n <= 4
  }

  /**
   * The guard of the save: it rejects exactly when a required field or some
   * reminder time is empty.  Nothing is trimmed, so a name of spaces passes.
   */
  function MissingRequired(medicineName: string, startDate: Option<Instant>, reminderTimes: seq<string>,
                           dosage: string, medicineFrequency: string): (missing: bool)
    ensures missing <==>
              || medicineName == ""
              || startDate == None
              || (exists i :: 0 <= i < |reminderTimes| && reminderTimes[i] == "")
              || dosage == ""
              || medicineFrequency == ""
  {
    !Truthy(medicineName) || startDate.None? || !EveryTruthy(reminderTimes) ||
    !Truthy(dosage) || !Truthy(medicineFrequency)
  }

  /**
   * What every medicine reminder the screen persists satisfies: required
   * fields present, one to four doses a day, one non-empty time per dose.
   */
  predicate WellFormed(r: Record) {
    && r.MedicineReminder?
    && r.medicineName != "" && r.dosage != "" && r.medicineFrequency != ""
    && IsTimesChoice(r.timesPerDay)
    && |r.reminderTimes| == r.timesPerDay
    && forall i :: 0 <= i < |r.reminderTimes| ==> r.reminderTimes[i] != ""
  }

  /**
   * The object literal the save builds from the form.  A form that passes the
   * guard and keeps one slot per dose yields a well-formed reminder.
   */
  function NewReminder(id: Id, medicineName: string, dosage: string, timesPerDay: int,
                       reminderTimes: seq<string>, startDate: Instant, medicineFrequency: string,
                       notes: string, doctor: string, notificationEnabled: bool): (r: Record)
    ensures && !MissingRequired(medicineName, Some(startDate), reminderTimes, dosage, medicineFrequency)
            && IsTimesChoice(timesPerDay) && |reminderTimes| == timesPerDay
            ==> WellFormed(r)
  {
    MedicineReminder(id, medicineName, dosage, timesPerDay, reminderTimes, startDate,
                     medicineFrequency, notes, doctor, notificationEnabled)
  }

  /** The alert the save shows; a storage failure is only logged. */
  function Alert(outcome: SaveOutcome): (message: Option<string>)
    ensures message.None? <==> outcome.Failed?
  {
    match outcome
    case Rejected => Some("Please fill all required fields.")
    case Saved => Some("\U{1F48A} Medicine Reminder Saved!")
    case Failed(_) => None
  }

  /** All the screen's state variables at one moment. */
  datatype FormState = FormState(
    medicineName: string, dosage: string, timesPerDay: int, reminderTimes: seq<string>,
    timePickersVisible: seq<bool>, startDate: Option<Instant>, showDatePicker: bool,
    medicineFrequency: string, notes: string, doctor: string, notificationEnabled: bool)

  /** The state the screen opens with. */
  const Initial := FormState("", "", 1, [""], [false], None, false, "", "", "", true)

  class MedicineForm {
    var medicineName: string
    var dosage: string
    var timesPerDay: int
    var reminderTimes: seq<string>
    var timePickersVisible: seq<bool>
    var startDate: Option<Instant>
    var showDatePicker: bool
    var medicineFrequency: string
    var notes: string
    var doctor: string
    var notificationEnabled: bool

    ghost function State(): FormState
      reads this
    {
      FormState(medicineName, dosage, timesPerDay, reminderTimes, timePickersVisible, startDate,
                showDatePicker, medicineFrequency, notes, doctor, notificationEnabled)
    }

    /** One reminder time and one picker flag per dose of the day. */
    ghost predicate Valid()
      reads this
    {
      IsTimesChoice(timesPerDay) && |reminderTimes| == timesPerDay && |timePickersVisible| == timesPerDay
    }

    constructor ()
      ensures Valid() && State() == Initial
    {
      medicineName, dosage, timesPerDay := "", "", 1;
      reminderTimes, timePickersVisible := [""], [false];
      startDate, showDatePicker := None, false;
      medicineFrequency, notes, doctor, notificationEnabled := "", "", "", true;
    }

    /** The guard of the save, on the current form. */
    predicate Incomplete()
      reads this
    {
      MissingRequired(medicineName, startDate, reminderTimes, dosage, medicineFrequency)
    }

    /** The record the save would persist under the given id. */
    function Draft(id: Id): Record
      reads this
      requires !Incomplete()
    {
      NewReminder(id, medicineName, dosage, timesPerDay, reminderTimes, startDate.value,
                  medicineFrequency, notes, doctor, notificationEnabled)
    }

    /** The start-date picker reports: it closes, and a chosen date replaces the old one. */
    method OnChangeDate(selected: Option<Instant>)
      modifies this
      ensures State() == old(State()).(showDatePicker := false,
                                       startDate := if selected.Some? then selected else old(startDate))
    {
      showDatePicker := false;
      if selected.Some? {
        startDate := selected;
      }
    }

    /** The start-date button opens the picker. */
    method OpenDatePicker()
      modifies this
      ensures State() == old(State()).(showDatePicker := true)
    {
      showDatePicker := true;
    }

    /** The button of time slot `index` opens that slot's picker. */
    method OpenTimePicker(index: nat)
      requires Valid() && index < |timePickersVisible|
      modifies this
      ensures Valid()
      ensures State() == old(State()).(timePickersVisible := old(timePickersVisible)[index := true])
    {
      timePickersVisible := timePickersVisible[index := true];
    }

    /**
     * The picker of slot `index` reports the time `time` (the chosen one or
     * now, formatted): that slot gets the time and its picker closes.
     */
    method HandleTimeChange(index: nat, time: ClockTime)
      requires Valid() && index < |reminderTimes|
      modifies this
      ensures Valid()
      ensures State() == old(State()).(reminderTimes := old(reminderTimes)[index := time],
                                       timePickersVisible := old(timePickersVisible)[index := false])
    {
      var newTimes := reminderTimes;
      newTimes := newTimes[index := time];
      reminderTimes := newTimes;
      var visibility := timePickersVisible;
      visibility := visibility[index := false];
      timePickersVisible := visibility;
    }

    /** A new times-per-day choice: `count` empty slots, every picker closed. */
    method HandleTimesPerDayChange(count: int)
      requires IsTimesChoice(count)
      modifies this
      ensures Valid()
      ensures |reminderTimes| == count && forall i :: 0 <= i < count ==> reminderTimes[i] == ""
      ensures |timePickersVisible| == count && forall i :: 0 <= i < count ==> !timePickersVisible[i]
      ensures State() == old(State()).(timesPerDay := count, reminderTimes := reminderTimes,
                                       timePickersVisible := timePickersVisible)
    {
      timesPerDay := count;
      reminderTimes := seq(count, _ => "");
      timePickersVisible := seq(count, _ => false);
    }

    /**
     * Validate, build the record, append it, and on success return the form to
     * its opening values (the date picker's visibility is left as it was).  A
     * rejected or failed save touches neither the form nor, when it fails, the
     * store.
     */
    method SaveReminder(store: Storage, id: Id, faults: Faults) returns (outcome: SaveOutcome)
      requires Valid()
      modifies this, store
      ensures Valid()
      ensures outcome == Rejected <==> old(Incomplete())
      ensures outcome == Rejected ==> unchanged(this) && store.data == old(store.data)
      ensures !old(Incomplete()) ==>
                var spec := AppendSpec(old(store.data), Key, old(Draft(id)), faults);
                && (spec.Success? ==> outcome == Saved && store.data == spec.value)
                && (spec.Failure? ==> outcome == Failed(spec.error) && unchanged(this) && store.data == old(store.data))
      ensures outcome == Saved ==>
                && Load(store.data, Key) == Success(Load(old(store.data), Key).value + [old(Draft(id))])
                && WellFormed(old(Draft(id)))
                && State() == Initial.(showDatePicker := old(showDatePicker))
      ensures outcome == Saved && (forall x :: x in Load(old(store.data), Key).value ==> WellFormed(x)) ==>
                forall x :: x in Load(store.data, Key).value ==> WellFormed(x)
    {
      if Incomplete() {
        return Rejected;
      }
      var entry := Draft(id);
      ghost var before := store.data;
      ghost var spec := AppendSpec(before, Key, entry, faults);

      var written := store.Append(Key, entry, faults);
      if written.Failure? {
        assert spec.Failure? && store.data == before;
        return Failed(written.error);
      }
      assert spec.Success? && store.data == spec.value;
      ClearFields();
      outcome := Saved;
    }

    /** The reset after a successful save: every field but the date picker's visibility. */
    method ClearFields()
      modifies this
      ensures Valid()
      ensures State() == Initial.(showDatePicker := old(showDatePicker))
    {
      medicineName := "";
      dosage := "";
      timesPerDay := 1;
      reminderTimes := [""];
      timePickersVisible := [false];
      startDate := None;
      medicineFrequency := "";
      notes := "";
      doctor := "";
      notificationEnabled := true;
    }
  }
}
