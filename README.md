# SmartLifeReminder: add-reminder screens and onboarding pager

A Dafny model of the logic in a mobile reminder app. Five "add" screens save a
record each: a medicine reminder, a health check-up, a vaccination, an
anniversary or a birthday. Each save reads one list from key-value storage
(AsyncStorage), appends the record and writes the whole list back. The model
also covers the three-slide onboarding pager.

Modules:

- `RecordStore`: the storage provider as a class `Storage` over a
  `map<string, Slot>`. `Append` reads the value under a key, treats an absent
  or empty value as `[]`, pushes the record and writes the list back.
  `AppendSpec` is the pure function that specifies `Append`. Its contract
  and the lemmas beside it state the store's properties:
  - the old list is a prefix and the record comes last;
  - no other key changes;
  - a fresh key becomes `[r]`;
  - sequential appends keep submission order;
  - a failure (read, parse or write) names its cause, and `Append` then
    leaves the store unchanged.
- `AddMedicine`, `AddHealthCheckup`, `AddVaccination`, `AddAnniversary`,
  `AddBirthday`: one class per screen. Its fields are the screen's state
  variables, and its methods are the screen's handlers (date picker, time
  slots, save, reset). Beside each class sit the screen's pure parts:
  - the validation guard, whose contract says exactly what it rejects;
  - the record literal, whose contract says what every accepted record
    satisfies.
  The medicine form keeps the invariant `|reminderTimes| ==
  |timePickersVisible| == timesPerDay` with `timesPerDay` in 1..4. From it,
  every reminder the screen persists has one non-empty time per dose.
- `Onboarding`: the pager index as a class, with `Next` as its pure step.
  Routes are output values. Lemmas cover repeated presses, the button label
  and the auth redirect.
- `JsText`: JavaScript string truthiness, `String.prototype.trim` (over the
  ECMAScript WhiteSpace and LineTerminator characters) and `every` over a list
  of strings.
- `Records`: the record shapes. An `Instant` is a `Date` given by its ISO-8601
  string. An `Id` is `Date.now().toString()`. A `ClockTime` is a
  `toLocaleTimeString()` result. All three are opaque non-empty strings. The
  JSON key `type` is the field `kind`, because `type` is a Dafny keyword.

Parameters stand for the environment:
- `id` and `now` replace the clock;
- `Faults` says whether the provider's get or set fails;
- `Option<Instant>` is what a date picker reports;
- `Option<User>` is the auth listener's user.

Points about the code that a reader might not expect:
- A birthday record has `id`, `type: 'birthday'` and `notificationEnabled`
  besides `name` and `date`.
- The medicine guard does not check `|reminderTimes| == timesPerDay`. The
  property holds because every handler keeps the form invariant, and the
  contract of `AddMedicine.NewReminder` derives well-formedness from it.
- A corrupt stored value is not a separate error in the code. It ends in the
  same catch block as a provider failure: the form is kept and no record is
  written. The model names the cause (`ParseError`), but every failure leads
  to the same screen state.
- After a storage failure, the medicine and vaccination screens only log.
  The other three also show an alert.
- `handleNext` changes only `currentIndex` (and with it the button label) or
  navigates. It never scrolls the FlatList, so after a press the pager index
  need not be the slide on screen. `Onboarding.Next` models the index, not
  the slide shown.

## Model

| member | source | states |
|---|---|---|
| JsText.TrimStart | app/add-health-checkup.tsx:38 | the result is a suffix of the input, it does not start with whitespace, and everything dropped is whitespace |
| JsText.TrimEnd | app/add-health-checkup.tsx:38 | the result is a prefix of the input, it does not end with whitespace, and everything dropped is whitespace |
| JsText.Trim | app/add-health-checkup.tsx:38 | `s.trim()` is empty exactly when every character of `s` is whitespace (including for `""`); otherwise neither its first nor its last character is whitespace |
| JsText.EveryTruthy | app/add-medicine.tsx:57 | `times.every(t => t)` holds exactly when no entry is the empty string |
| RecordStore.Current | app/add-medicine.tsx:80 | a null or empty stored value reads as `[]`; a JSON value reads as the records it encodes; only a malformed value (not JSON, or not an array) fails, with ParseError |
| RecordStore.Load | app/add-medicine.tsx:79-80 | a key never written, or one holding `""`, reads as `[]`; the read fails, with ParseError, exactly on a corrupt value; a JSON value reads as its records |
| RecordStore.AppendSpec | app/add-medicine.tsx:78-97 | an append succeeds exactly when neither provider call fails and the stored value is not corrupt; then the list under the key is the old list with the record added last and no other key changes; otherwise the error is ReadError on a failed read, ParseError on a corrupt value, WriteError on a failed write |
| RecordStore.AppendToFresh | app/add-birthday.tsx:45-48 | appending under an absent key succeeds and the list becomes exactly `[r]` |
| RecordStore.SequentialAppends | app/add-vaccination.tsx:57-60 | two appends, one after the other, leave the old list followed by both records in submission order |
| RecordStore.Storage.GetItem | app/add-medicine.tsx:79 | returns the value under the key, null when the key is absent, or a ReadError when the provider fails |
| RecordStore.Storage.SetItem | app/add-medicine.tsx:82 | replaces the whole value of the key with the list, or fails with WriteError and changes nothing |
| RecordStore.Storage.Append | app/add-medicine.tsx:79-82 | read, push, write back: on success the namespace is `AppendSpec`'s and the list written is the old list plus the record; on failure the namespace is unchanged |
| AddMedicine.MissingRequired | app/add-medicine.tsx:54-63 | the save is rejected exactly when the name, dosage or frequency is empty, there is no start date, or some reminder time is empty (nothing is trimmed) |
| AddMedicine.NewReminder | app/add-medicine.tsx:65-76 | a form that passes the guard, with 1..4 doses and one slot per dose, builds a record with `|reminderTimes| == timesPerDay`, every time non-empty, and the required fields present |
| AddMedicine.Alert | app/add-medicine.tsx:61-96 | the screen shows an alert on rejection and on success, and none when storage fails |
| AddMedicine.MedicineForm.constructor | app/add-medicine.tsx:19-29 | the opening state: empty strings, 1 time, `['']`, `[false]`, no start date, notification on; the slot invariant holds |
| AddMedicine.MedicineForm.OnChangeDate | app/add-medicine.tsx:31-34 | the picker closes; a supplied date replaces the start date; nothing else changes |
| AddMedicine.MedicineForm.OpenDatePicker | app/add-medicine.tsx:140 | only the date picker's visibility changes, to shown |
| AddMedicine.MedicineForm.OpenTimePicker | app/add-medicine.tsx:121-125 | only slot `index`'s picker flag becomes true; lengths and the invariant are kept |
| AddMedicine.MedicineForm.HandleTimeChange | app/add-medicine.tsx:36-45 | only `reminderTimes[index]` becomes the time and `timePickersVisible[index]` false; lengths, other slots and other fields are unchanged |
| AddMedicine.MedicineForm.HandleTimesPerDayChange | app/add-medicine.tsx:47-51 | `timesPerDay` becomes `count`, with exactly `count` empty times and `count` closed pickers; nothing else changes |
| AddMedicine.MedicineForm.ClearFields | app/add-medicine.tsx:84-94 | every field is back at its opening value except the date picker's visibility, and the invariant holds |
| AddMedicine.MedicineForm.SaveReminder | app/add-medicine.tsx:53-98 | rejected exactly when the guard fires, leaving form and store untouched. Otherwise the store becomes `AppendSpec`'s result. On success the list gains the well-formed record last, a list of well-formed reminders stays well-formed, and the form is reset; on failure the form and store are unchanged |
| AddHealthCheckup.MissingRequired | app/add-health-checkup.tsx:38-41 | the save is rejected exactly when the name, check-up type or frequency is whitespace only; doctor, clinic and notes are not checked |
| AddHealthCheckup.NewCheckup | app/add-health-checkup.tsx:43-54 | the record is always tagged `health-checkup`; an accepted form builds one whose required fields are visible |
| AddHealthCheckup.Alert | app/add-health-checkup.tsx:39-65 | the success alert is shown exactly on a successful save |
| AddHealthCheckup.CheckupForm.constructor | app/add-health-checkup.tsx:18-27 | the opening state, dated now: empty strings, notification on, no date selected |
| AddHealthCheckup.CheckupForm.OnChangeDate | app/add-health-checkup.tsx:29-35 | the picker always closes; only a supplied date replaces `date` and sets `hasSelectedDate` |
| AddHealthCheckup.CheckupForm.OpenDatePicker | app/add-health-checkup.tsx:108 | only the date picker's visibility changes, to shown |
| AddHealthCheckup.CheckupForm.ResetForm | app/add-health-checkup.tsx:69-79 | empty strings, notification on, dated now, `hasSelectedDate` false; the picker's visibility is kept |
| AddHealthCheckup.CheckupForm.SaveCheckup | app/add-health-checkup.tsx:37-67 | rejected exactly when the trimmed guard fires (nothing changes). Otherwise the tagged record is appended last to `healthCheckups`. The form is reset only on success; a failure changes nothing |
| AddVaccination.MissingRequired | app/add-vaccination.tsx:37-40 | the save is rejected exactly when the name or vaccine is whitespace only, no date is set, or the type or frequency is empty |
| AddVaccination.NewVaccination | app/add-vaccination.tsx:42-54 | an accepted form builds a vaccination record whose name and vaccine are visible and whose type and frequency are set |
| AddVaccination.Alert | app/add-vaccination.tsx:38-74 | the screen shows an alert on rejection and on success, and none when storage fails |
| AddVaccination.VaccinationForm.constructor | app/add-vaccination.tsx:19-29 | the opening state: empty strings, no date, notification on |
| AddVaccination.VaccinationForm.OnChangeDate | app/add-vaccination.tsx:31-34 | the picker closes; only a supplied date replaces `date` |
| AddVaccination.VaccinationForm.OpenDatePicker | app/add-vaccination.tsx:98 | only the date picker's visibility changes, to shown |
| AddVaccination.VaccinationForm.ClearFields | app/add-vaccination.tsx:62-71 | every field but the picker's visibility is back at its opening value: strings empty, date null, notification on |
| AddVaccination.VaccinationForm.SaveVaccination | app/add-vaccination.tsx:36-75 | rejected exactly when the guard fires (nothing changes). Otherwise the record is appended last to `vaccinations`. The form is reset only on success; a failure changes nothing |
| AddAnniversary.MissingName | app/add-anniversary.tsx:31-34 | the save is rejected exactly when the name is whitespace only |
| AddAnniversary.NewAnniversary | app/add-anniversary.tsx:36-42 | the record is always tagged `anniversary`; a name that passes the guard stays visible in it |
| AddAnniversary.Alert | app/add-anniversary.tsx:32-53 | the failure alert is shown exactly when storage fails |
| AddAnniversary.AnniversaryForm.constructor | app/add-anniversary.tsx:16-20 | the opening state, dated now: empty name, no date selected, picker hidden, notification on |
| AddAnniversary.AnniversaryForm.OnChangeDate | app/add-anniversary.tsx:22-28 | the picker always closes; only a supplied date replaces `date` and sets `hasSelectedDate` |
| AddAnniversary.AnniversaryForm.OpenDatePicker | app/add-anniversary.tsx:77 | only the date picker's visibility changes, to shown |
| AddAnniversary.AnniversaryForm.ResetForm | app/add-anniversary.tsx:57-62 | empty name, dated now, `hasSelectedDate` false, notification on |
| AddAnniversary.AnniversaryForm.SaveAnniversary | app/add-anniversary.tsx:30-55 | rejected exactly when the trimmed name is empty (nothing changes). Otherwise the tagged record, with a visible name, is appended last to `anniversaries`. The form is reset only on success; a failure changes nothing |
| AddBirthday.MissingName | app/add-birthday.tsx:31-34 | the save is rejected exactly when the name is whitespace only |
| AddBirthday.NewBirthday | app/add-birthday.tsx:36-42 | the record is always tagged `birthday`; a name that passes the guard stays visible in it |
| AddBirthday.Alert | app/add-birthday.tsx:32-56 | the failure alert is shown exactly when storage fails |
| AddBirthday.BirthdayForm.constructor | app/add-birthday.tsx:16-20 | the opening state, dated now: empty name, no date selected, picker hidden, notification on |
| AddBirthday.BirthdayForm.OnChangeDate | app/add-birthday.tsx:22-28 | the picker always closes; only a supplied date replaces `date` and sets `hasSelectedDate` |
| AddBirthday.BirthdayForm.OpenDatePicker | app/add-birthday.tsx:73 | only the date picker's visibility changes, to shown |
| AddBirthday.BirthdayForm.ClearFields | app/add-birthday.tsx:50-53 | empty name, dated now, `hasSelectedDate` false, notification on |
| AddBirthday.BirthdayForm.SaveBirthday | app/add-birthday.tsx:30-58 | rejected exactly when the trimmed name is empty (nothing changes). Otherwise the tagged record is appended last to `birthdays`, and the first birthday saved under an absent key is the whole list. The form is reset only on success; a failure changes nothing |
| Onboarding.Next | app/onboarding.tsx:65-71 | before the last slide, advance by one without navigating; on the last, route to `/(auth)/login` with the index unchanged; a slide index stays a slide index |
| Onboarding.Label | app/onboarding.tsx:146 | "Get Started" exactly on the last slide, "Next" otherwise |
| Onboarding.AuthRedirect | app/onboarding.tsx:53-57 | a signed-in user is routed to `/(tabs)`; no user, no navigation |
| Onboarding.PressesClimbToLast | app/onboarding.tsx:65-71 | k presses from slide i land on slide min(i + k, 2) |
| Onboarding.PressesFromStart | app/onboarding.tsx:48-71 | from slide 0 the index stays in 0..2; the label is "Get Started", and the next press goes to login, exactly after at least two presses |
| Onboarding.OnboardingScreen.constructor | app/onboarding.tsx:26-48 | the pager opens on slide 0 of exactly 3 |
| Onboarding.OnboardingScreen.HandleSkip | app/onboarding.tsx:61-63 | routes to `/(auth)/login` from any slide |
| Onboarding.OnboardingScreen.HandleNext | app/onboarding.tsx:65-71 | the new index and the route are those of `Next` on the old index, and the index stays on a slide |

## Left out

- Rendering: JSX, styles, pickers, switches, text inputs, scroll animation and pagination dots. The plain setters the widgets call (`setName`, `setDosage`, `setCheckupType` and the like) are single field assignments and are not modelled as methods. None of them touches `timesPerDay`, `reminderTimes` or `timePickersVisible`.
- `onMomentumScrollEnd` in app/onboarding.tsx:89-92 sets the index from a floating-point `Math.round` of a scroll offset. It is not modelled, so the pager index changes only through Next.
- Clock and locale: `Date.now()`, `new Date()`, `toISOString()` and `toLocaleTimeString()` become parameters. The model does not capture that ids are unique or increase over time.
- `JSON.parse` and `JSON.stringify`: a stored value is the list it encodes, so the JSON round trip is not modelled. A stored JSON array whose elements are not records is not distinguished from one whose elements are.
- Concurrency: each save is one atomic step. The lost update between two overlapping saves of one category is not modelled.
- `Alert.alert` and `console.error` are reduced to the `Alert` functions, which say which message each outcome shows.
- The Firebase auth subscription (`onAuthStateChanged`, unsubscribe) is not modelled. `AuthRedirect` models only the callback's decision.
- AddMedicine.MedicineForm.HandleTimeChange: it requires `index` to be a rendered slot. Each slot's callback is created by `reminderTimes.map` (app/add-medicine.tsx:117-135), so an out-of-range index, which would make a JavaScript array sparse, cannot occur.
- AddMedicine.MedicineForm.HandleTimesPerDayChange: it requires `count` in 1..4, the only values the picker offers (app/add-medicine.tsx:111).
- app/splash.tsx, app/_layout.tsx, the tab screens and firebaseConfig.ts are not part of this model: they hold animation, routing and SDK set-up and have no logic to model.
