/**
 * The model forms of core/forms.py. Each form datatype holds exactly the
 * fields its `Meta.fields` lists, as submitted; `Clean*` validates them the
 * way the form does (required fields, max lengths, choice sets, foreign keys
 * that must resolve, the one-to-one uniqueness check) and either yields the
 * record to save or the set of fields in error. `*FormOf` is the inverse: the
 * form a record is edited through.
 */
module Forms {
  import opened Wrappers
  import opened Models

  /** Names of the form fields that failed validation. */
  type Errors = set<string>

  function Check(ok: bool, field: string): (e: Errors)
    ensures e == {} <==> ok
    ensures e <= {field}
  {
    if ok then {} else {field}
  }

  /** An `EmailField(null=True)` stores a blank entry as NULL. */
  function EmailOf(text: string): Option<string> {
    if text == "" then None else Some(text)
  }

  function EmailText(email: Option<string>): string {
    if email.Some? then email.value else ""
  }

  // ----- PatientForm -----

  datatype PatientForm = PatientForm(
    name: string,
    age: int,
    gender: string,
    bloodGroup: string,
    phone: string,
    email: string,
    address: string,
    dateRegistered: Date)

  const PatientFields: set<string> :=
    {"name", "age", "gender", "blood_group", "phone", "email", "address", "date_registered"}

  function PatientFormOf(p: Patient): PatientForm {
    PatientForm(p.name, p.age, p.gender.Code(), p.bloodGroup.Code(), p.phone,
                EmailText(p.email), p.address, p.dateRegistered)
  }

  function CleanPatient(f: PatientForm): (r: Result<Patient, Errors>)
    ensures r.Success? ==> ValidPatient(r.value) && PatientFormOf(r.value) == f
    ensures r.Failure? ==> r.error != {} && r.error <= PatientFields
    ensures f.age < 0 ==> r.Failure? && "age" in r.error
    ensures ParseGender(f.gender).None? ==> r.Failure? && "gender" in r.error
    ensures ParseBloodGroup(f.bloodGroup).None? ==> r.Failure? && "blood_group" in r.error
    ensures f.name == "" ==> r.Failure? && "name" in r.error
  {
    var nameErr := Check(RequiredText(f.name, NameMaxLength), "name");
    var ageErr := Check(f.age >= 0, "age");
    var genderErr := Check(ParseGender(f.gender).Some?, "gender");
    var bloodErr := Check(ParseBloodGroup(f.bloodGroup).Some?, "blood_group");
    var phoneErr := Check(RequiredText(f.phone, PhoneMaxLength), "phone");
    var emailErr := Check(|f.email| <= EmailMaxLength, "email");
    var errors := nameErr + ageErr + genderErr + bloodErr + phoneErr + emailErr;
    if errors != {} then Failure(errors)
    else
      assert nameErr == {} && ageErr == {} && genderErr == {} && bloodErr == {} && phoneErr == {} && emailErr == {};
      Success(Patient(f.name, f.age, ParseGender(f.gender).value, ParseBloodGroup(f.bloodGroup).value,
                      f.phone, EmailOf(f.email), f.address, f.dateRegistered))
  }

  /** Create then read back: a valid patient passes its own form unchanged. */
  lemma PatientRoundTrip(p: Patient)
    requires ValidPatient(p)
    ensures CleanPatient(PatientFormOf(p)) == Success(p)
  {
  }

  // ----- DoctorForm -----

  datatype DoctorForm = DoctorForm(
    name: string,
    specialization: string,
    phone: string,
    email: string,
    availableDays: string,
    availableTime: string)

  const DoctorFields: set<string> :=
    {"name", "specialization", "phone", "email", "available_days", "available_time"}

  function DoctorFormOf(d: Doctor): DoctorForm {
    DoctorForm(d.name, d.specialization, d.phone, EmailText(d.email), d.availableDays, d.availableTime)
  }

  function CleanDoctor(f: DoctorForm): (r: Result<Doctor, Errors>)
    ensures r.Success? ==> ValidDoctor(r.value) && DoctorFormOf(r.value) == f
    ensures r.Failure? ==> r.error != {} && r.error <= DoctorFields
    ensures f.name == "" ==> r.Failure? && "name" in r.error
    ensures f.specialization == "" ==> r.Failure? && "specialization" in r.error
  {
    var nameErr := Check(RequiredText(f.name, NameMaxLength), "name");
    var specErr := Check(RequiredText(f.specialization, SpecializationMaxLength), "specialization");
    var phoneErr := Check(RequiredText(f.phone, PhoneMaxLength), "phone");
    var emailErr := Check(|f.email| <= EmailMaxLength, "email");
    var daysErr := Check(RequiredText(f.availableDays, AvailableDaysMaxLength), "available_days");
    var timeErr := Check(RequiredText(f.availableTime, AvailableTimeMaxLength), "available_time");
    var errors := nameErr + specErr + phoneErr + emailErr + daysErr + timeErr;
    if errors != {} then Failure(errors)
    else
      assert nameErr == {} && specErr == {} && phoneErr == {} && emailErr == {} && daysErr == {} && timeErr == {};
      Success(Doctor(f.name, f.specialization, f.phone, EmailOf(f.email), f.availableDays, f.availableTime))
  }

  lemma DoctorRoundTrip(d: Doctor)
    requires ValidDoctor(d)
    ensures CleanDoctor(DoctorFormOf(d)) == Success(d)
  {
  }

  // ----- AppointmentForm -----

  datatype AppointmentForm = AppointmentForm(
    patient: Id,
    doctor: Id,
    date: Date,
    time: Time,
    status: string,
    notes: string)

  const AppointmentFields: set<string> := {"patient", "doctor", "date", "time", "status", "notes"}

  function AppointmentFormOf(a: Appointment): AppointmentForm {
    AppointmentForm(a.patient, a.doctor, a.date, a.time, a.status.Code(), a.notes)
  }

  /** The create form as first shown: `status` starts at its model default. */
  function NewAppointmentForm(patient: Id, doctor: Id, date: Date, time: Time): AppointmentForm {
    AppointmentForm(patient, doctor, date, time, DefaultStatus.Code(), "")
  }

  /** `patients` and `doctors` are the keys the two selects may choose from. */
  function CleanAppointment(f: AppointmentForm, patients: set<Id>, doctors: set<Id>): (r: Result<Appointment, Errors>)
    ensures r.Success? ==> AppointmentFormOf(r.value) == f
    ensures r.Success? ==> r.value.patient in patients && r.value.doctor in doctors
    ensures r.Failure? ==> r.error != {} && r.error <= AppointmentFields
    ensures f.patient !in patients ==> r.Failure? && "patient" in r.error
    ensures f.doctor !in doctors ==> r.Failure? && "doctor" in r.error
    ensures ParseStatus(f.status).None? ==> r.Failure? && "status" in r.error
  {
    var patientErr := Check(f.patient in patients, "patient");
    var doctorErr := Check(f.doctor in doctors, "doctor");
    var statusErr := Check(ParseStatus(f.status).Some?, "status");
    var errors := patientErr + doctorErr + statusErr;
    if errors != {} then Failure(errors)
    else
      assert patientErr == {} && doctorErr == {} && statusErr == {};
      Success(Appointment(f.patient, f.doctor, f.date, f.time, ParseStatus(f.status).value, f.notes))
  }

  lemma AppointmentRoundTrip(a: Appointment, patients: set<Id>, doctors: set<Id>)
    requires a.patient in patients && a.doctor in doctors
    ensures CleanAppointment(AppointmentFormOf(a), patients, doctors) == Success(a)
  {
  }

  /** Submitting the create form with its initial status schedules the appointment. */
  lemma NewAppointmentIsScheduled(patient: Id, doctor: Id, date: Date, time: Time, patients: set<Id>, doctors: set<Id>)
    requires patient in patients && doctor in doctors
    ensures CleanAppointment(NewAppointmentForm(patient, doctor, date, time), patients, doctors)
      == Success(Appointment(patient, doctor, date, time, Scheduled, ""))
  {
    AppointmentRoundTrip(Appointment(patient, doctor, date, time, Scheduled, ""), patients, doctors);
  }

  /** The edit form accepts every status from every status: there is no transition rule. */
  lemma AnyStatusChange(a: Appointment, s: Status, patients: set<Id>, doctors: set<Id>)
    requires a.patient in patients && a.doctor in doctors
    ensures CleanAppointment(AppointmentFormOf(a).(status := s.Code()), patients, doctors)
      == Success(a.(status := s))
  {
    AppointmentRoundTrip(a.(status := s), patients, doctors);
  }

  // ----- TreatmentForm -----

  datatype TreatmentForm = TreatmentForm(
    appointment: Id,
    diagnosis: string,
    prescription: string,
    notes: string,
    treatmentDate: Date)

  const TreatmentFields: set<string> := {"appointment", "diagnosis", "prescription", "notes", "treatment_date"}

  function TreatmentFormOf(t: Treatment): TreatmentForm {
    TreatmentForm(t.appointment, t.diagnosis, t.prescription, t.notes, t.treatmentDate)
  }

  /**
   * `appointments` are the keys the select may choose from; `treated` are the
   * appointments another treatment already holds (the unique check).
   */
  function CleanTreatment(f: TreatmentForm, appointments: set<Id>, treated: set<Id>): (r: Result<Treatment, Errors>)
    ensures r.Success? ==> ValidTreatment(r.value) && TreatmentFormOf(r.value) == f
    ensures r.Success? ==> r.value.appointment in appointments && r.value.appointment !in treated
    ensures r.Failure? ==> r.error != {} && r.error <= TreatmentFields
    ensures f.appointment !in appointments ==> r.Failure? && "appointment" in r.error
    ensures f.appointment in treated ==> r.Failure? && "appointment" in r.error
  {
    var appointmentErr := Check(f.appointment in appointments && f.appointment !in treated, "appointment");
    var diagnosisErr := Check(RequiredText(f.diagnosis, DiagnosisMaxLength), "diagnosis");
    var prescriptionErr := Check(f.prescription != "", "prescription");
    var errors := appointmentErr + diagnosisErr + prescriptionErr;
    if errors != {} then Failure(errors)
    else
      assert appointmentErr == {} && diagnosisErr == {} && prescriptionErr == {};
      Success(Treatment(f.appointment, f.diagnosis, f.prescription, f.notes, f.treatmentDate))
  }

  lemma TreatmentRoundTrip(t: Treatment, appointments: set<Id>, treated: set<Id>)
    requires ValidTreatment(t) && t.appointment in appointments && t.appointment !in treated
    ensures CleanTreatment(TreatmentFormOf(t), appointments, treated) == Success(t)
  {
  }

  // ----- BillForm -----

  datatype BillForm = BillForm(
    patient: Id,
    appointment: Id,
    amount: Cents,
    paid: bool,
    dateIssued: Date,
    paymentMethod: string)

  const BillFields: set<string> := {"patient", "appointment", "amount", "paid", "date_issued", "payment_method"}

  function BillFormOf(b: Bill): BillForm {
    BillForm(b.patient, b.appointment, b.amount, b.paid, b.dateIssued, b.paymentMethod)
  }

  /** The create form as first shown: unpaid, no payment method, dated today. */
  function NewBillForm(patient: Id, appointment: Id, amount: Cents, today: Date): BillForm {
    BillForm(patient, appointment, amount, false, today, "")
  }

  function CleanBill(f: BillForm, patients: set<Id>, appointments: set<Id>): (r: Result<Bill, Errors>)
    ensures r.Success? ==> BillFormOf(r.value) == f
    ensures r.Success? ==> r.value.patient in patients && r.value.appointment in appointments
    ensures r.Success? ==> AmountFits(r.value.amount) && PaymentMethodChoice(r.value.paymentMethod)
    ensures r.Failure? ==> r.error != {} && r.error <= BillFields
    ensures f.patient !in patients ==> r.Failure? && "patient" in r.error
    ensures f.appointment !in appointments ==> r.Failure? && "appointment" in r.error
    ensures !AmountFits(f.amount) ==> r.Failure? && "amount" in r.error
    ensures !PaymentMethodChoice(f.paymentMethod) ==> r.Failure? && "payment_method" in r.error
  {
    var patientErr := Check(f.patient in patients, "patient");
    var appointmentErr := Check(f.appointment in appointments, "appointment");
    var amountErr := Check(AmountFits(f.amount), "amount");
    var methodErr := Check(PaymentMethodChoice(f.paymentMethod), "payment_method");
    var errors := patientErr + appointmentErr + amountErr + methodErr;
    if errors != {} then Failure(errors)
    else
      assert patientErr == {} && appointmentErr == {} && amountErr == {} && methodErr == {};
      Success(Bill(f.patient, f.appointment, f.amount, f.paid, f.dateIssued, f.paymentMethod))
  }

  lemma BillRoundTrip(b: Bill, patients: set<Id>, appointments: set<Id>)
    requires b.patient in patients && b.appointment in appointments
    requires AmountFits(b.amount) && PaymentMethodChoice(b.paymentMethod)
    ensures CleanBill(BillFormOf(b), patients, appointments) == Success(b)
  {
  }

  /** Submitting the create form as first shown gives an unpaid bill with no method. */
  lemma NewBillIsUnpaid(patient: Id, appointment: Id, amount: Cents, today: Date, patients: set<Id>, appointments: set<Id>)
    requires patient in patients && appointment in appointments && AmountFits(amount)
    ensures CleanBill(NewBillForm(patient, appointment, amount, today), patients, appointments)
      == Success(Bill(patient, appointment, amount, false, today, ""))
  {
  }

  /** The edit form may set `paid` either way: only mark-paid is one-way. */
  lemma PaidEditableBothWays(b: Bill, paid: bool, patients: set<Id>, appointments: set<Id>)
    requires b.patient in patients && b.appointment in appointments
    requires AmountFits(b.amount) && PaymentMethodChoice(b.paymentMethod)
    ensures CleanBill(BillFormOf(b).(paid := paid), patients, appointments) == Success(b.(paid := paid))
  {
  }
}
