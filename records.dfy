/**
 * The records the add screens persist, one constructor per category, with the
 * fields of the object literal each screen builds.  Clock and locale values
 * are opaque: an `Instant` stands for a `Date` through its ISO-8601 string
 * (`toISOString()`), an `Id` for `Date.now().toString()`, a `ClockTime` for a
 * `toLocaleTimeString()` result.  The JSON key `type` is the field `kind`.
 */
module Records {

  /** A point in time, as its ISO-8601 string; never empty. */
  type Instant = s: string | s != [] witness "1970-01-01T00:00:00.000Z"

  /** A record identifier: the decimal milliseconds of `Date.now()`. */
  type Id = s: string | s != [] witness "0"

  /** A time of day as the locale formats it, e.g. "08:30 AM"; never empty. */
  type ClockTime = s: string | s != [] witness "12:00 AM"

  datatype Record =
    | MedicineReminder(id: Id, medicineName: string, dosage: string, timesPerDay: int,
                       reminderTimes: seq<string>, startDate: Instant, medicineFrequency: string,
                       notes: string, doctor: string, notificationEnabled: bool)
    | HealthCheckup(id: Id, name: string, checkupType: string, date: Instant,
                    reminderFrequency: string, doctorName: string, clinicLocation: string,
                    notificationEnabled: bool, notes: string, kind: string)
    | Vaccination(id: Id, name: string, vaccine: string, date: Instant, dose: string,
                  kind: string, doctor: string, location: string, notes: string,
                  notificationEnabled: bool, frequency: string)
    | Anniversary(id: Id, name: string, date: Instant, kind: string, notificationEnabled: bool)
    | Birthday(id: Id, name: string, date: Instant, kind: string, notificationEnabled: bool)
}
