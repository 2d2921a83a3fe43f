# Hospital records: a verified model of the `core` app

This project models the `core` application of a small Django hospital
management system. The system keeps five kinds of record:

- patients and doctors;
- appointments, each between one patient and one doctor;
- treatments, at most one per appointment;
- bills, each for a patient and an appointment.

The model has four parts:

- **`models.dfy` (module `Models`)** covers the record types and their field domains.
  Those domains are the gender, blood-group, status and payment-method choices, the
  required text fields with their maximum lengths, and an amount of at most ten digits
  held as integer cents.
  The module also holds the integrity invariant (`Consistent`):
  - every foreign key resolves;
  - an appointment has at most one treatment;
  - every row satisfies its column rules.

  It also holds the cascading deletes for patients, doctors and appointments, each
  proved to keep the invariant and to remove exactly the dependent rows.
- **`forms.dfy` (module `Forms`)** covers the five model forms. Each form lists exactly
  the fields a create or edit may write. Validation (`Clean…`) either yields the record
  or yields a set of field errors. Round-trip lemmas show that a valid record passes its
  own form unchanged.
- **`views.dfy` (module `Views`)** covers the read side and the one workflow:
  - the mark-paid transition on a bill;
  - the dashboard totals, the unpaid count and the two "recent five" lists;
  - the ordered list views, ten rows per page.
- **`store.dfy` (module `Store`)** holds the class `RecordStore`. It keeps the five
  tables as maps updated in place, with one id counter per table, so an id is never
  reused: every method states all five counters after it runs, and a successful create
  advances exactly its own table's counter by one. It has a create and an edit method
  for every record type and a delete method for the three types that have a delete
  page. Its `MarkBillPaid` method is the pay
  endpoint. Every method keeps `Valid()`, which is the integrity invariant plus the
  counter bounds. Each method also states its whole new state in terms of the pure
  functions above.

Two supporting modules complete the project:

- `ordering.dfy` (module `Ordering`) holds sorting by a column, with proofs that the
  result is a duplicate-free, sorted enumeration of the table. It also holds a
  first-k-rows lemma for `order_by(...)[:k]`.
- `wrappers.dfy` holds `Option` and `Result`.

Dates and times are integers. The creation date that Django takes from the clock
arrives in the submitted form.

Two points of the model follow the code closely:

- **Appointment order.** The appointment list and the dashboard override
  `Appointment.Meta.ordering` (`-date`, `-time`, `core/models.py:64`) with `-date` alone
  (`core/views.py:17`, `core/views.py:131`).
- **Treatment clash.** A second treatment on the same appointment is refused by the
  form's unique check, which reports it as an error on the `appointment` field.

## Model

| member | source | states |
|---|---|---|
| Models.ParseGender | core/models.py:6-10 | a form value parses to a gender exactly when it is the code of that gender ("M", "F", "O") |
| Models.ParseBloodGroup | core/models.py:11-16 | a form value parses exactly when it is one of the eight blood-group codes, and to that group |
| Models.ParseStatus | core/models.py:50-54 | a form value parses exactly when it is "Scheduled", "Completed" or "Cancelled" |
| Models.ParsePaymentMethod | core/models.py:85-90 | a form value parses exactly when it is "Cash", "Card", "Insurance" or "Online" |
| Models.Consistent | core/models.py:56-93 | the integrity invariant: every appointment's patient and doctor, every treatment's appointment and every bill's patient and appointment exist; no two treatments share an appointment; every row meets its column rules |
| Models.TreatmentsAtMostAppointments | core/models.py:71 | a consistent store never holds more treatments than appointments, since each treatment holds its own existing appointment |
| Models.SaveTreatmentKeepsOneToOne | core/models.py:71 | writing treatment `id` keeps "one treatment per appointment" when no other treatment holds its appointment |
| Models.SavePatientKeepsConsistent | core/models.py:18-25 | saving a patient whose columns are valid keeps every integrity rule |
| Models.SaveDoctorKeepsConsistent | core/models.py:35-40 | saving a doctor whose columns are valid keeps every integrity rule |
| Models.SaveAppointmentKeepsConsistent | core/models.py:56-57 | an appointment whose patient and doctor exist can be saved without breaking integrity |
| Models.SaveTreatmentKeepsConsistent | core/models.py:71-73 | a valid treatment whose appointment exists and is not held by another treatment can be saved without breaking integrity |
| Models.SaveBillKeepsConsistent | core/models.py:92-94 | a bill whose patient and appointment exist and whose amount fits ten digits can be saved without breaking integrity |
| Models.RemoveAppointments | core/models.py:71 | removing a set of appointments removes exactly the treatments and bills that point at them, keeps integrity, and alters no surviving row |
| Models.DeletePatient | core/models.py:56 | deleting a patient keeps integrity; no appointment or bill refers to the patient, and no treatment or bill refers to one of its appointments; every unrelated row survives unchanged and doctors are untouched |
| Models.DeleteDoctor | core/models.py:57 | deleting a doctor removes exactly its appointments and their treatments and bills; patients are untouched; integrity is kept |
| Models.DeleteAppointment | core/models.py:93 | deleting an appointment removes exactly its treatment and its bills and nothing else; integrity is kept |
| Forms.CleanPatient | core/forms.py:8 | success gives a valid patient whose form is exactly the submitted one; failure names only listed fields; a negative age, an unknown gender or blood group, or an empty name is refused on that field |
| Forms.PatientRoundTrip | core/forms.py:8 | every valid patient passes its own form and comes back unchanged |
| Forms.CleanDoctor | core/forms.py:18 | success gives a valid doctor equal to the submitted fields; an empty name or specialization is refused on that field |
| Forms.DoctorRoundTrip | core/forms.py:18 | every valid doctor passes its own form unchanged |
| Forms.CleanAppointment | core/forms.py:24 | success gives an appointment whose patient and doctor exist; a missing patient, a missing doctor or an unknown status is refused on that field |
| Forms.AppointmentRoundTrip | core/forms.py:24 | an appointment whose patient and doctor exist passes its own form unchanged |
| Forms.NewAppointmentIsScheduled | core/models.py:60 | submitting the create form with its initial status gives a Scheduled appointment |
| Forms.AnyStatusChange | core/forms.py:24 | the edit form moves an appointment from any status to any status, changing nothing else |
| Forms.CleanTreatment | core/forms.py:35 | success gives a valid treatment on an existing appointment that no other treatment holds; an appointment that is missing or already treated is refused on `appointment` |
| Forms.TreatmentRoundTrip | core/forms.py:35 | a valid treatment on a free, existing appointment passes its form unchanged, including when it is re-pointed |
| Forms.CleanBill | core/forms.py:46 | success gives a bill with existing patient and appointment, an amount within ten digits and a listed or blank payment method; each violation is refused on its field |
| Forms.BillRoundTrip | core/forms.py:46 | a bill satisfying the column rules passes its form unchanged |
| Forms.NewBillIsUnpaid | core/models.py:95 | the create form as first shown yields an unpaid bill with no payment method |
| Forms.PaidEditableBothWays | core/forms.py:46 | the edit form may set `paid` to true or back to false |
| Views.MarkPaid | core/views.py:265-267 | the bill becomes paid; a blank method becomes the supplied value, or "Cash" when none is supplied; a set method is kept; patient, appointment, amount and issue date are unchanged |
| Views.MarkPaidIdempotent | core/views.py:265-267 | paying twice with the same request gives the state of paying once |
| Views.RepayKeepsMethod | core/views.py:266 | once a method is set, paying again with any other value changes nothing |
| Views.MarkPaidStoresUncheckedMethod | core/views.py:267 | the supplied method is not checked: an unlisted value is stored, and an empty one leaves the bill paid with a blank method |
| Views.UnpaidBills | core/views.py:16 | the unpaid ids and the remaining (paid) ids split the bill table, so their counts add up to the bill total |
| Views.Dashboard | core/views.py:9-20 | each total is its table's size; the unpaid count is the number of unpaid bills and is at most the bill total; each recent list has at most five entries |
| Views.MarkPaidUnpaidCount | core/views.py:16 | paying an unpaid bill lowers the dashboard's unpaid count by one, and paying a paid bill leaves it |
| Views.RecentAppointmentsAreLatest | core/views.py:17 | the recent appointments are min(5, all) distinct appointments, latest date first, and no appointment left out is later than one listed |
| Views.RecentPatientsAreNewest | core/views.py:18 | the recent patients are min(5, all) distinct patients, newest registration first, and none left out registered later than one listed |
| Views.ListOrderIsTotalPreorder | core/models.py:27-28 | each list order (its `Meta.ordering`, or `-date` for appointments) is total and transitive |
| Views.ListRowsOrdered | core/views.py:131 | a list shows every row of its table exactly once, in the list's order |
| Views.DoctorListByName | core/models.py:42-43 | the doctor list is in ascending name order |
| Views.PageCount | core/views.py:28 | there is always at least one page; the pages hold every row; and there is no trailing empty page |
| Views.Page | core/views.py:78 | a page exists exactly for numbers 1..page count; it holds at most ten rows, exactly ten unless it is the last, and is the matching slice of the ordered rows |
| Views.PagesCoverRows | core/views.py:128 | the first n pages laid end to end are the first 10n rows |
| Views.AllPagesAreAllRows | core/views.py:181 | all pages together are the whole ordered list, each row once |
| Views.ListPage | core/views.py:224 | a list page exists exactly for numbers 1..the page count of its table, and shows at most ten distinct rows of that table |
| Views.FifteenRowsTwoPages | core/views.py:224 | fifteen rows make a page of ten and a page of five, and page three does not exist |
| Ordering.OrderByDistinctSorted | core/models.py:99-100 | ordering a table by a column enumerates each row exactly once, sorted by that column |
| Ordering.FirstKAreLeading | core/views.py:17 | `order_by(...)[:k]` returns min(k, n) distinct rows in order, and no row left out sorts before a row taken |
| Ordering.FirstKByDescendingKey | core/views.py:18 | the first k rows by a descending column: the largest values first, and no row left out has a larger value |
| Ordering.AscendingIsTotalPreorder | core/models.py:43 | ordering by a text column (character codes) is total and transitive |
| Ordering.DescendingIsTotalPreorder | core/models.py:78 | ordering by a date column, latest first, is total and transitive |
| Store.RecordStore.constructor | core/models.py:5-104 | a new store has five empty tables, is valid, and every id counter starts at 1 |
| Store.RecordStore.CreatePatient | core/views.py:31-44 | a valid form adds the patient under a fresh id and changes nothing else; an invalid one changes nothing and reports the form's field errors |
| Store.RecordStore.UpdatePatient | core/views.py:47-60 | a missing id is not found; otherwise the patient becomes exactly what the form gives, under the same id, or nothing changes and the field errors are reported |
| Store.RecordStore.DeletePatient | core/views.py:63-70 | a missing id is not found and changes nothing; otherwise the store becomes the cascading patient delete, and integrity is kept |
| Store.RecordStore.CreateDoctor | core/views.py:81-94 | a valid form adds the doctor under a fresh id; an invalid one changes nothing |
| Store.RecordStore.UpdateDoctor | core/views.py:97-110 | not found, or the doctor is replaced by the form's values under the same id, or nothing changes |
| Store.RecordStore.DeleteDoctor | core/views.py:113-120 | not found with no change, or the cascading doctor delete |
| Store.RecordStore.CreateAppointment | core/views.py:134-147 | a form naming existing rows adds the appointment under a fresh id; otherwise nothing changes |
| Store.RecordStore.UpdateAppointment | core/views.py:150-163 | not found, or the appointment is rewritten from the form (any status, re-pointed patient or doctor that exist), or nothing changes |
| Store.RecordStore.DeleteAppointment | core/views.py:166-173 | not found with no change, or the appointment and exactly its treatment and bills are removed |
| Store.RecordStore.CreateTreatment | core/views.py:187-200 | a treatment is added only on an existing appointment no other treatment holds; otherwise nothing changes |
| Store.RecordStore.UpdateTreatment | core/views.py:203-216 | a treatment may be re-pointed only to an appointment that exists and is not held by another treatment; otherwise nothing changes |
| Store.RecordStore.CreateBill | core/views.py:230-243 | a valid form adds the bill under a fresh id; otherwise nothing changes |
| Store.RecordStore.UpdateBill | core/views.py:246-259 | not found, or the bill is rewritten from the form (including `paid` either way), or nothing changes |
| Store.RecordStore.MarkBillPaid | core/views.py:262-271 | a missing bill is not found even for GET; a non-POST request only shows the confirmation and changes nothing; a POST replaces exactly that bill by the mark-paid result; integrity is kept |

## Left out

- HTTP plumbing is not modelled: requests, templates, flash messages, redirects and
  `get_context_data` add no state. A delete page answers GET with a confirmation that
  changes nothing, so only the POST that deletes is modelled.
- `core/urls.py` exposes no delete route for treatments or bills (lines 25-34). The model
  therefore has no delete method for them, and those rows disappear only by cascade.
- The admin configuration (`core/admin.py`) and the generated migration are not modelled.
  The migration repeats the schema in `core/models.py`.
- Email syntax, date and time parsing, and the whitespace stripping of text fields are
  Django library validators. Email is an optional string, and the empty form value is
  stored as none. Dates and times are integers. Text is taken as submitted.
- `timezone.now` defaults are not modelled. Every date is an ordinary form field; only
  `Forms.NewBillForm`, the bill create form as first shown, takes "today" as a parameter.
- `Models.ValidPatient` does not state the upper bound the database puts on
  `PositiveIntegerField`. Age is an unbounded natural number.
- `Views.ListOrder` compares text by character codes, not by the database's collation.
  The model lists rows with equal sort values in ascending id order, while the database
  leaves that order open, and no contract depends on it.
- Pagination's `page=last` keyword is not modelled. A page number is an integer, and a
  number outside 1..page count is the 404 answer.
- The requirement that a bill's patient is its appointment's patient is not enforced
  anywhere in the source. So it is not part of `Consistent`.
- `Models.ValidColumns` does not require a stored bill's payment method to be a listed
  choice. Mark-paid stores the submitted value unchecked (`core/views.py:267`), and the
  model does not check its 20-character length either.
- Database transactions and concurrent requests are not modelled. Every method is one
  atomic step.
- `__str__` rendering is not modelled.
