/**
 * The hospital schema of core/models.py: five record types, their choice
 * sets and column constraints, the foreign-key / one-to-one declarations as
 * an integrity predicate over the five tables, and `on_delete=CASCADE` as
 * explicit delete functions.
 */
module Models {
  import opened Wrappers

  /** Primary keys are allocated by the database and never reused. */
  type Id = nat
  /** A calendar date as a day number. */
  type Date = int
  /** A time of day as a number of seconds. */
  type Time = int
  /** A `DecimalField(decimal_places=2)` value, in hundredths. */
  type Cents = int

  // ----- Choice sets -----

  datatype Gender = Male | Female | Other {
    /** The one-letter code stored in the `gender` column. */
    function Code(): string {
      match this
      case Male => "M"
      case Female => "F"
      case Other => "O"
    }
  }

  /** The choice a submitted code selects, if it is one of the listed codes. */
  function ParseGender(code: string): (r: Option<Gender>)
    ensures forall g: Gender :: r == Some(g) <==> g.Code() == code
  {
    if code == "M" then Some(Male)
    else if code == "F" then Some(Female)
    else if code == "O" then Some(Other)
    else None
  }

  datatype BloodGroup = APos | ANeg | BPos | BNeg | ABPos | ABNeg | OPos | ONeg {
    function Code(): string {
      match this
      case APos => "A+"
      case ANeg => "A-"
      case BPos => "B+"
      case BNeg => "B-"
      case ABPos => "AB+"
      case ABNeg => "AB-"
      case OPos => "O+"
      case ONeg => "O-"
    }
  }

  function ParseBloodGroup(code: string): (r: Option<BloodGroup>)
    ensures forall b: BloodGroup :: r == Some(b) <==> b.Code() == code
  {
    if code == "A+" then Some(APos)
    else if code == "A-" then Some(ANeg)
    else if code == "B+" then Some(BPos)
    else if code == "B-" then Some(BNeg)
    else if code == "AB+" then Some(ABPos)
    else if code == "AB-" then Some(ABNeg)
    else if code == "O+" then Some(OPos)
    else if code == "O-" then Some(ONeg)
    else None
  }

  datatype Status = Scheduled | Completed | Cancelled {
    function Code(): string {
      match this
      case Scheduled => "Scheduled"
      case Completed => "Completed"
      case Cancelled => "Cancelled"
    }
  }

  function ParseStatus(code: string): (r: Option<Status>)
    ensures forall s: Status :: r == Some(s) <==> s.Code() == code
  {
    if code == "Scheduled" then Some(Scheduled)
    else if code == "Completed" then Some(Completed)
    else if code == "Cancelled" then Some(Cancelled)
    else None
  }

  /** The status a new appointment starts with. */
  const DefaultStatus: Status := Scheduled

  datatype PaymentMethod = Cash | Card | Insurance | Online {
    function Code(): string {
      match this
      case Cash => "Cash"
      case Card => "Card"
      case Insurance => "Insurance"
      case Online => "Online"
    }
  }

  function ParsePaymentMethod(code: string): (r: Option<PaymentMethod>)
    ensures forall m: PaymentMethod :: r == Some(m) <==> m.Code() == code
  {
    if code == "Cash" then Some(Cash)
    else if code == "Card" then Some(Card)
    else if code == "Insurance" then Some(Insurance)
    else if code == "Online" then Some(Online)
    else None
  }

  /** `payment_method` is declared `blank=True`: blank or one of the choices. */
  predicate PaymentMethodChoice(code: string) {
    code == "" || ParsePaymentMethod(code).Some?
  }

  // ----- Column constraints -----

  const NameMaxLength := 200
  const PhoneMaxLength := 20
  const EmailMaxLength := 254
  const SpecializationMaxLength := 200
  const AvailableDaysMaxLength := 200
  const AvailableTimeMaxLength := 100
  const DiagnosisMaxLength := 500

  /** `max_digits=10, decimal_places=2`: at most 8 digits before the point. */
  const AmountBound: int := 10_000_000_000

  predicate AmountFits(amount: Cents) {
    -AmountBound < amount < AmountBound
  }

  /** A `CharField` without `blank=True`: not blank and within its max_length. */
  predicate RequiredText(s: string, maxLength: nat) {
    0 < |s| <= maxLength
  }

  /** An `EmailField(blank=True, null=True)`: absent, or a non-blank address within 254 characters. */
  predicate OptionalEmail(email: Option<string>) {
    email.Some? ==> RequiredText(email.value, EmailMaxLength)
  }

  // ----- Records -----

  datatype Patient = Patient(
    name: string,
    age: nat,
    gender: Gender,
    bloodGroup: BloodGroup,
    phone: string,
    email: Option<string>,
    address: string,
    dateRegistered: Date)

  datatype Doctor = Doctor(
    name: string,
    specialization: string,
    phone: string,
    email: Option<string>,
    availableDays: string,
    availableTime: string)

  datatype Appointment = Appointment(
    patient: Id,
    doctor: Id,
    date: Date,
    time: Time,
    status: Status,
    notes: string)

  datatype Treatment = Treatment(
    appointment: Id,
    diagnosis: string,
    prescription: string,
    notes: string,
    treatmentDate: Date)

  /** `paymentMethod` is a string: mark-paid may store a value outside the choices. */
  datatype Bill = Bill(
    patient: Id,
    appointment: Id,
    amount: Cents,
    paid: bool,
    dateIssued: Date,
    paymentMethod: string)

  predicate ValidPatient(p: Patient) {
    && RequiredText(p.name, NameMaxLength)
    && RequiredText(p.phone, PhoneMaxLength)
    && OptionalEmail(p.email)
  }

  predicate ValidDoctor(d: Doctor) {
    && RequiredText(d.name, NameMaxLength)
    && RequiredText(d.specialization, SpecializationMaxLength)
    && RequiredText(d.phone, PhoneMaxLength)
    && OptionalEmail(d.email)
    && RequiredText(d.availableDays, AvailableDaysMaxLength)
    && RequiredText(d.availableTime, AvailableTimeMaxLength)
  }

  predicate ValidTreatment(t: Treatment) {
    && RequiredText(t.diagnosis, DiagnosisMaxLength)
    && t.prescription != ""
  }

  // ----- Tables and their integrity -----

  datatype Tables = Tables(
    patients: map<Id, Patient>,
    doctors: map<Id, Doctor>,
    appointments: map<Id, Appointment>,
    treatments: map<Id, Treatment>,
    bills: map<Id, Bill>)

  const EmptyTables := Tables(map[], map[], map[], map[], map[])

  /**
   * Every foreign key resolves to an existing row, so every join the list
   * views and the dashboard load (`select_related`) finds its row.
   */
  predicate References(t: Tables) {
    && (forall a :: a in t.appointments ==>
          t.appointments[a].patient in t.patients && t.appointments[a].doctor in t.doctors)
    && (forall k :: k in t.treatments ==> t.treatments[k].appointment in t.appointments)
    && (forall b :: b in t.bills ==>
          t.bills[b].patient in t.patients && t.bills[b].appointment in t.appointments)
  }

  /** `Treatment.appointment` is a `OneToOneField`. */
  predicate OneTreatmentPerAppointment(treatments: map<Id, Treatment>) {
    forall k, k' ::
      k in treatments && k' in treatments && treatments[k].appointment == treatments[k'].appointment
      ==> k == k'
  }

  /** Column constraints that every row satisfies. */
  predicate ValidColumns(t: Tables) {
    && (forall p :: p in t.patients ==> ValidPatient(t.patients[p]))
    && (forall d :: d in t.doctors ==> ValidDoctor(t.doctors[d]))
    && (forall k :: k in t.treatments ==> ValidTreatment(t.treatments[k]))
    && (forall b :: b in t.bills ==> AmountFits(t.bills[b].amount))
  }

  /** The integrity invariant every store state keeps. */
  predicate Consistent(t: Tables) {
    References(t) && OneTreatmentPerAppointment(t.treatments) && ValidColumns(t)
  }

  /** Distinct treatments hold distinct appointments. */
  lemma {:induction false} TreatedAppointmentsCount(treatments: map<Id, Treatment>)
    requires OneTreatmentPerAppointment(treatments)
    ensures |TreatedAppointments(treatments)| == |treatments|
    decreases |treatments|
  {
    if treatments != map[] {
      var k :| k in treatments;
      var rest := treatments - {k};
      var held := treatments[k].appointment;
      forall j | j in rest ensures rest[j].appointment != held {
        assert treatments[j] == rest[j];
      }
      TreatedAppointmentsCount(rest);
      forall a | a in TreatedAppointments(treatments)
        ensures a in TreatedAppointments(rest) + {held}
      {
        var j :| j in treatments && treatments[j].appointment == a;
        if j != k {
          assert rest[j].appointment == a;
        }
      }
      forall a | a in TreatedAppointments(rest) ensures a in TreatedAppointments(treatments) {
        var j :| j in rest && rest[j].appointment == a;
        assert treatments[j].appointment == a;
      }
      assert TreatedAppointments(treatments) == TreatedAppointments(rest) + {held};
      assert held !in TreatedAppointments(rest);
      assert |treatments.Keys| == |rest.Keys| + 1 by {
        assert treatments.Keys == rest.Keys + {k};
      }
    }
  }

  /**
   * Treatments point at distinct, existing appointments, so a consistent
   * store never holds more treatments than appointments.
   */
  lemma TreatmentsAtMostAppointments(t: Tables)
    requires Consistent(t)
    ensures |t.treatments| <= |t.appointments|
  {
    TreatedAppointmentsCount(t.treatments);
    var treated := TreatedAppointments(t.treatments);
    forall a | a in treated ensures a in t.appointments.Keys {
      var k :| k in t.treatments && t.treatments[k].appointment == a;
    }
    SubsetSize(treated, t.appointments.Keys);
  }

  lemma SubsetSize(small: set<Id>, big: set<Id>)
    requires small <= big
    ensures |small| <= |big|
  {
    var rest := big - small;
    assert big == small + rest;
    assert small * rest == {};
  }

  /** The appointments that already have a treatment. */
  function TreatedAppointments(treatments: map<Id, Treatment>): set<Id> {
    set k | k in treatments :: treatments[k].appointment
  }

  /**
   * Saving treatment `id` (new or existing) keeps the one-to-one rule when no
   * other treatment is on the same appointment.
   */
  lemma SaveTreatmentKeepsOneToOne(treatments: map<Id, Treatment>, id: Id, t: Treatment)
    requires OneTreatmentPerAppointment(treatments)
    requires t.appointment !in TreatedAppointments(treatments - {id})
    ensures OneTreatmentPerAppointment(treatments[id := t])
  {
    var others := treatments - {id};
    var ts := treatments[id := t];
    forall k | k in ts && k != id ensures ts[k].appointment != t.appointment {
      assert ts[k] == others[k];
      assert others[k].appointment in TreatedAppointments(others);
    }
    forall k, k' | k in ts && k' in ts && ts[k].appointment == ts[k'].appointment
      ensures k == k'
    {
      if k != id && k' != id {
        assert ts[k] == treatments[k] && ts[k'] == treatments[k'];
      }
    }
  }

  // ----- Saving one row -----

  /** Saving a valid patient (new or edited) keeps the tables consistent. */
  lemma SavePatientKeepsConsistent(t: Tables, id: Id, p: Patient)
    requires Consistent(t) && ValidPatient(p)
    ensures Consistent(t.(patients := t.patients[id := p]))
  {
  }

  lemma SaveDoctorKeepsConsistent(t: Tables, id: Id, d: Doctor)
    requires Consistent(t) && ValidDoctor(d)
    ensures Consistent(t.(doctors := t.doctors[id := d]))
  {
  }

  /** An appointment may be saved when its patient and doctor exist. */
  lemma SaveAppointmentKeepsConsistent(t: Tables, id: Id, a: Appointment)
    requires Consistent(t) && a.patient in t.patients && a.doctor in t.doctors
    ensures Consistent(t.(appointments := t.appointments[id := a]))
  {
  }

  /**
   * A treatment may be saved when its appointment exists and no other
   * treatment holds that appointment.
   */
  lemma SaveTreatmentKeepsConsistent(t: Tables, id: Id, x: Treatment)
    requires Consistent(t) && ValidTreatment(x) && x.appointment in t.appointments
    requires x.appointment !in TreatedAppointments(t.treatments - {id})
    ensures Consistent(t.(treatments := t.treatments[id := x]))
  {
    SaveTreatmentKeepsOneToOne(t.treatments, id, x);
  }

  /** A bill may be saved when its patient and appointment exist and its amount fits. */
  lemma SaveBillKeepsConsistent(t: Tables, id: Id, b: Bill)
    requires Consistent(t) && b.patient in t.patients && b.appointment in t.appointments
    requires AmountFits(b.amount)
    ensures Consistent(t.(bills := t.bills[id := b]))
  {
  }

  /** `small` holds rows of `big`, unchanged. */
  ghost predicate SubTable<V>(small: map<Id, V>, big: map<Id, V>) {
    forall k :: k in small ==> k in big && small[k] == big[k]
  }

  // ----- Cascading deletes -----

  function AppointmentsOfPatient(t: Tables, p: Id): set<Id> {
    set a | a in t.appointments && t.appointments[a].patient == p
  }

  function AppointmentsOfDoctor(t: Tables, d: Id): set<Id> {
    set a | a in t.appointments && t.appointments[a].doctor == d
  }

  /** Deletes the appointments `gone` and, by cascade, their treatments and bills. */
  function RemoveAppointments(t: Tables, gone: set<Id>): (r: Tables)
    ensures Consistent(t) ==> Consistent(r)
    ensures r.patients == t.patients && r.doctors == t.doctors
    ensures forall a :: a in r.appointments <==> a in t.appointments && a !in gone
    ensures forall k :: k in r.treatments <==> k in t.treatments && t.treatments[k].appointment !in gone
    ensures forall b :: b in r.bills <==> b in t.bills && t.bills[b].appointment !in gone
    ensures SubTable(r.appointments, t.appointments)
    ensures SubTable(r.treatments, t.treatments) && SubTable(r.bills, t.bills)
  {
    t.(appointments := map a | a in t.appointments && a !in gone :: t.appointments[a],
       treatments := map k | k in t.treatments && t.treatments[k].appointment !in gone :: t.treatments[k],
       bills := map b | b in t.bills && t.bills[b].appointment !in gone :: t.bills[b])
  }

  /**
   * Deleting a patient deletes its appointments (and their treatments and
   * bills) and its own bills; nothing that does not depend on it changes.
   */
  function DeletePatient(t: Tables, p: Id): (r: Tables)
    ensures Consistent(t) ==> Consistent(r)
    ensures r.patients.Keys == t.patients.Keys - {p}
    ensures r.doctors == t.doctors
    // nothing is left that refers to the patient or to one of its deleted appointments
    ensures forall a :: a in r.appointments ==> r.appointments[a].patient != p
    ensures forall k :: k in r.treatments ==> r.treatments[k].appointment !in AppointmentsOfPatient(t, p)
    ensures forall b :: b in r.bills ==>
      r.bills[b].patient != p && r.bills[b].appointment !in AppointmentsOfPatient(t, p)
    // every other row survives unchanged, and no row is added or altered
    ensures forall a :: a in t.appointments && t.appointments[a].patient != p ==> a in r.appointments
    ensures forall k :: k in t.treatments && t.treatments[k].appointment !in AppointmentsOfPatient(t, p) ==>
      k in r.treatments
    ensures forall b ::
      b in t.bills && t.bills[b].patient != p && t.bills[b].appointment !in AppointmentsOfPatient(t, p)
      ==> b in r.bills
    ensures SubTable(r.patients, t.patients) && SubTable(r.appointments, t.appointments)
    ensures SubTable(r.treatments, t.treatments) && SubTable(r.bills, t.bills)
  {
    var s := RemoveAppointments(t, AppointmentsOfPatient(t, p));
    s.(patients := t.patients - {p},
       bills := map b | b in s.bills && s.bills[b].patient != p :: s.bills[b])
  }

  /**
   * Deleting a doctor deletes exactly its appointments and their treatments
   * and bills; patients and other doctors are untouched.
   */
  function DeleteDoctor(t: Tables, d: Id): (r: Tables)
    ensures Consistent(t) ==> Consistent(r)
    ensures r.patients == t.patients
    ensures r.doctors.Keys == t.doctors.Keys - {d}
    ensures forall a :: a in r.appointments ==> r.appointments[a].doctor != d
    ensures forall k :: k in r.treatments ==> r.treatments[k].appointment !in AppointmentsOfDoctor(t, d)
    ensures forall b :: b in r.bills ==> r.bills[b].appointment !in AppointmentsOfDoctor(t, d)
    ensures forall a :: a in t.appointments && t.appointments[a].doctor != d ==> a in r.appointments
    ensures forall k :: k in t.treatments && t.treatments[k].appointment !in AppointmentsOfDoctor(t, d) ==>
      k in r.treatments
    ensures forall b :: b in t.bills && t.bills[b].appointment !in AppointmentsOfDoctor(t, d) ==>
      b in r.bills
    ensures SubTable(r.doctors, t.doctors) && SubTable(r.appointments, t.appointments)
    ensures SubTable(r.treatments, t.treatments) && SubTable(r.bills, t.bills)
  {
    var s := RemoveAppointments(t, AppointmentsOfDoctor(t, d));
    s.(doctors := t.doctors - {d})
  }

  /** Deleting an appointment deletes its treatment and its bills, and nothing else. */
  function DeleteAppointment(t: Tables, a: Id): (r: Tables)
    ensures Consistent(t) ==> Consistent(r)
    ensures r.patients == t.patients && r.doctors == t.doctors
    ensures r.appointments.Keys == t.appointments.Keys - {a}
    ensures forall k :: k in r.treatments ==> r.treatments[k].appointment != a
    ensures forall b :: b in r.bills ==> r.bills[b].appointment != a
    ensures forall k :: k in t.treatments && t.treatments[k].appointment != a ==> k in r.treatments
    ensures forall b :: b in t.bills && t.bills[b].appointment != a ==> b in r.bills
    ensures SubTable(r.appointments, t.appointments)
    ensures SubTable(r.treatments, t.treatments) && SubTable(r.bills, t.bills)
  {
    RemoveAppointments(t, {a})
  }
}
