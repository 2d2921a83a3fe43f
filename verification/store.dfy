/**
 * The record store behind the create, update and delete views and the
 * mark-paid endpoint: five tables held in place, one id counter per table
 * (ids are never reused), and the invariant that every row is valid and
 * every reference resolves.
 */
module Store {
  import opened Wrappers
  import opened Models
  import opened Forms
  import Views

  /** Why a write was refused: no row with that id (404), or form errors by field. */
  datatype Error = NotFound | Invalid(fields: Errors)

  /** The next id each table hands out. */
  datatype IdCounters = IdCounters(patient: Id, doctor: Id, appointment: Id, treatment: Id, bill: Id)

  /** The three answers of the pay endpoint. */
  datatype PayResponse = BillNotFound | ConfirmPage | PaidRedirect

  class RecordStore {
    var patients: map<Id, Patient>
    var doctors: map<Id, Doctor>
    var appointments: map<Id, Appointment>
    var treatments: map<Id, Treatment>
    var bills: map<Id, Bill>
    var nextPatientId: Id
    var nextDoctorId: Id
    var nextAppointmentId: Id
    var nextTreatmentId: Id
    var nextBillId: Id

    function Snapshot(): Tables
      reads this
    {
      Tables(patients, doctors, appointments, treatments, bills)
    }

    function Counters(): IdCounters
      reads this
    {
      IdCounters(nextPatientId, nextDoctorId, nextAppointmentId, nextTreatmentId, nextBillId)
    }

    /** The tables are consistent and every id in use lies below its table's counter. */
    ghost predicate Valid()
      reads this
    {
      && Consistent(Snapshot())
      && (forall k :: k in patients ==> k < nextPatientId)
      && (forall k :: k in doctors ==> k < nextDoctorId)
      && (forall k :: k in appointments ==> k < nextAppointmentId)
      && (forall k :: k in treatments ==> k < nextTreatmentId)
      && (forall k :: k in bills ==> k < nextBillId)
    }

    constructor ()
      ensures Valid() && Snapshot() == EmptyTables
      ensures Counters() == IdCounters(1, 1, 1, 1, 1)
    {
      patients, doctors, appointments, treatments, bills := map[], map[], map[], map[], map[];
      nextPatientId, nextDoctorId, nextAppointmentId, nextTreatmentId, nextBillId := 1, 1, 1, 1, 1;
    }

    // ----- Patients -----

    method CreatePatient(f: PatientForm) returns (r: Result<Id, Error>)
      requires Valid()
      modifies this
      ensures Valid()
      ensures r.Success? ==> Counters() == old(Counters()).(patient := old(nextPatientId) + 1)
      ensures CleanPatient(f).Failure? ==> r == Failure(Invalid(CleanPatient(f).error)) && unchanged(this)
      ensures CleanPatient(f).Success? ==>
        && r == Success(old(nextPatientId)) && r.value !in old(patients)
        && Snapshot() == old(Snapshot()).(patients := old(patients)[r.value := CleanPatient(f).value])
    {
      var cleaned := CleanPatient(f);
      if cleaned.Failure? {
        return Failure(Invalid(cleaned.error));
      }
      SavePatientKeepsConsistent(Snapshot(), nextPatientId, cleaned.value);
      patients := patients[nextPatientId := cleaned.value];
      r := Success(nextPatientId);
      nextPatientId := nextPatientId + 1;
    }

    /** Rewrites every field the form lists; the id stays. */
    method UpdatePatient(id: Id, f: PatientForm) returns (r: Result<Id, Error>)
      requires Valid()
      modifies this
      ensures Valid()
      ensures id !in old(patients) ==> r == Failure(NotFound) && unchanged(this)
      ensures id in old(patients) && CleanPatient(f).Failure? ==>
        r == Failure(Invalid(CleanPatient(f).error)) && unchanged(this)
      ensures id in old(patients) && CleanPatient(f).Success? ==>
        && r == Success(id)
        && Snapshot() == old(Snapshot()).(patients := old(patients)[id := CleanPatient(f).value])
      ensures Counters() == old(Counters())
    {
      if id !in patients {
        return Failure(NotFound);
      }
      var cleaned := CleanPatient(f);
      if cleaned.Failure? {
        return Failure(Invalid(cleaned.error));
      }
      SavePatientKeepsConsistent(Snapshot(), id, cleaned.value);
      patients := patients[id := cleaned.value];
      r := Success(id);
    }

    /** Deletes the patient and, by cascade, everything that depends on it. */
    method DeletePatient(id: Id) returns (found: bool)
      requires Valid()
      modifies this
      ensures Valid()
      ensures found == (id in old(patients))
      ensures found ==> Snapshot() == Models.DeletePatient(old(Snapshot()), id)
      ensures !found ==> unchanged(this)
      ensures Counters() == old(Counters())
    {
      found := id in patients;
      if found {
        var after := Models.DeletePatient(Snapshot(), id);
        patients, appointments, treatments, bills := after.patients, after.appointments, after.treatments, after.bills;
      }
    }

    // ----- Doctors -----

    method CreateDoctor(f: DoctorForm) returns (r: Result<Id, Error>)
      requires Valid()
      modifies this
      ensures Valid()
      ensures r.Success? ==> Counters() == old(Counters()).(doctor := old(nextDoctorId) + 1)
      ensures CleanDoctor(f).Failure? ==> r == Failure(Invalid(CleanDoctor(f).error)) && unchanged(this)
      ensures CleanDoctor(f).Success? ==>
        && r == Success(old(nextDoctorId)) && r.value !in old(doctors)
        && Snapshot() == old(Snapshot()).(doctors := old(doctors)[r.value := CleanDoctor(f).value])
    {
      var cleaned := CleanDoctor(f);
      if cleaned.Failure? {
        return Failure(Invalid(cleaned.error));
      }
      SaveDoctorKeepsConsistent(Snapshot(), nextDoctorId, cleaned.value);
      doctors := doctors[nextDoctorId := cleaned.value];
      r := Success(nextDoctorId);
      nextDoctorId := nextDoctorId + 1;
    }

    method UpdateDoctor(id: Id, f: DoctorForm) returns (r: Result<Id, Error>)
      requires Valid()
      modifies this
      ensures Valid()
      ensures id !in old(doctors) ==> r == Failure(NotFound) && unchanged(this)
      ensures id in old(doctors) && CleanDoctor(f).Failure? ==>
        r == Failure(Invalid(CleanDoctor(f).error)) && unchanged(this)
      ensures id in old(doctors) && CleanDoctor(f).Success? ==>
        && r == Success(id)
        && Snapshot() == old(Snapshot()).(doctors := old(doctors)[id := CleanDoctor(f).value])
      ensures Counters() == old(Counters())
    {
      if id !in doctors {
        return Failure(NotFound);
      }
      var cleaned := CleanDoctor(f);
      if cleaned.Failure? {
        return Failure(Invalid(cleaned.error));
      }
      SaveDoctorKeepsConsistent(Snapshot(), id, cleaned.value);
      doctors := doctors[id := cleaned.value];
      r := Success(id);
    }

    /** Deletes the doctor, its appointments and their treatments and bills. */
    method DeleteDoctor(id: Id) returns (found: bool)
      requires Valid()
      modifies this
      ensures Valid()
      ensures found == (id in old(doctors))
      ensures found ==> Snapshot() == Models.DeleteDoctor(old(Snapshot()), id)
      ensures !found ==> unchanged(this)
      ensures Counters() == old(Counters())
    {
      found := id in doctors;
      if found {
        var after := Models.DeleteDoctor(Snapshot(), id);
        doctors, appointments, treatments, bills := after.doctors, after.appointments, after.treatments, after.bills;
      }
    }

    // ----- Appointments -----

    /** The patient and doctor selects offer the rows that exist now. */
    method CreateAppointment(f: AppointmentForm) returns (r: Result<Id, Error>)
      requires Valid()
      modifies this
      ensures Valid()
      ensures r.Success? ==> Counters() == old(Counters()).(appointment := old(nextAppointmentId) + 1)
      ensures var c := CleanAppointment(f, old(patients).Keys, old(doctors).Keys);
        && (c.Failure? ==> r == Failure(Invalid(c.error)) && unchanged(this))
        && (c.Success? ==>
              && r == Success(old(nextAppointmentId)) && r.value !in old(appointments)
              && Snapshot() == old(Snapshot()).(appointments := old(appointments)[r.value := c.value]))
    {
      var cleaned := CleanAppointment(f, patients.Keys, doctors.Keys);
      if cleaned.Failure? {
        return Failure(Invalid(cleaned.error));
      }
      SaveAppointmentKeepsConsistent(Snapshot(), nextAppointmentId, cleaned.value);
      appointments := appointments[nextAppointmentId := cleaned.value];
      r := Success(nextAppointmentId);
      nextAppointmentId := nextAppointmentId + 1;
    }

    method UpdateAppointment(id: Id, f: AppointmentForm) returns (r: Result<Id, Error>)
      requires Valid()
      modifies this
      ensures Valid()
      ensures id !in old(appointments) ==> r == Failure(NotFound) && unchanged(this)
      ensures var c := CleanAppointment(f, old(patients).Keys, old(doctors).Keys);
        && (id in old(appointments) && c.Failure? ==> r == Failure(Invalid(c.error)) && unchanged(this))
        && (id in old(appointments) && c.Success? ==>
              && r == Success(id)
              && Snapshot() == old(Snapshot()).(appointments := old(appointments)[id := c.value]))
      ensures Counters() == old(Counters())
    {
      if id !in appointments {
        return Failure(NotFound);
      }
      var cleaned := CleanAppointment(f, patients.Keys, doctors.Keys);
      if cleaned.Failure? {
        return Failure(Invalid(cleaned.error));
      }
      SaveAppointmentKeepsConsistent(Snapshot(), id, cleaned.value);
      appointments := appointments[id := cleaned.value];
      r := Success(id);
    }

    /** Deletes the appointment, its treatment and its bills. */
    method DeleteAppointment(id: Id) returns (found: bool)
      requires Valid()
      modifies this
      ensures Valid()
      ensures found == (id in old(appointments))
      ensures found ==> Snapshot() == Models.DeleteAppointment(old(Snapshot()), id)
      ensures !found ==> unchanged(this)
      ensures Counters() == old(Counters())
    {
      found := id in appointments;
      if found {
        var after := Models.DeleteAppointment(Snapshot(), id);
        appointments, treatments, bills := after.appointments, after.treatments, after.bills;
      }
    }

    // ----- Treatments -----

    /** The form refuses an appointment that already has a treatment. */
    method CreateTreatment(f: TreatmentForm) returns (r: Result<Id, Error>)
      requires Valid()
      modifies this
      ensures Valid()
      ensures r.Success? ==> Counters() == old(Counters()).(treatment := old(nextTreatmentId) + 1)
      ensures var c := CleanTreatment(f, old(appointments).Keys, TreatedAppointments(old(treatments)));
        && (c.Failure? ==> r == Failure(Invalid(c.error)) && unchanged(this))
        && (c.Success? ==>
              && r == Success(old(nextTreatmentId)) && r.value !in old(treatments)
              && Snapshot() == old(Snapshot()).(treatments := old(treatments)[r.value := c.value]))
    {
      var cleaned := CleanTreatment(f, appointments.Keys, TreatedAppointments(treatments));
      if cleaned.Failure? {
        return Failure(Invalid(cleaned.error));
      }
      assert treatments - {nextTreatmentId} == treatments;
      SaveTreatmentKeepsConsistent(Snapshot(), nextTreatmentId, cleaned.value);
      treatments := treatments[nextTreatmentId := cleaned.value];
      r := Success(nextTreatmentId);
      nextTreatmentId := nextTreatmentId + 1;
    }

    /**
     * The appointment may be re-pointed, but not to one another treatment
     * holds; the treatment's own appointment stays allowed.
     */
    method UpdateTreatment(id: Id, f: TreatmentForm) returns (r: Result<Id, Error>)
      requires Valid()
      modifies this
      ensures Valid()
      ensures id !in old(treatments) ==> r == Failure(NotFound) && unchanged(this)
      ensures var c := CleanTreatment(f, old(appointments).Keys, TreatedAppointments(old(treatments) - {id}));
        && (id in old(treatments) && c.Failure? ==> r == Failure(Invalid(c.error)) && unchanged(this))
        && (id in old(treatments) && c.Success? ==>
              && r == Success(id)
              && Snapshot() == old(Snapshot()).(treatments := old(treatments)[id := c.value]))
      ensures Counters() == old(Counters())
    {
      if id !in treatments {
        return Failure(NotFound);
      }
      var cleaned := CleanTreatment(f, appointments.Keys, TreatedAppointments(treatments - {id}));
      if cleaned.Failure? {
        return Failure(Invalid(cleaned.error));
      }
      SaveTreatmentKeepsConsistent(Snapshot(), id, cleaned.value);
      treatments := treatments[id := cleaned.value];
      r := Success(id);
    }

    // ----- Bills -----

    method CreateBill(f: BillForm) returns (r: Result<Id, Error>)
      requires Valid()
      modifies this
      ensures Valid()
      ensures r.Success? ==> Counters() == old(Counters()).(bill := old(nextBillId) + 1)
      ensures var c := CleanBill(f, old(patients).Keys, old(appointments).Keys);
        && (c.Failure? ==> r == Failure(Invalid(c.error)) && unchanged(this))
        && (c.Success? ==>
              && r == Success(old(nextBillId)) && r.value !in old(bills)
              && Snapshot() == old(Snapshot()).(bills := old(bills)[r.value := c.value]))
    {
      var cleaned := CleanBill(f, patients.Keys, appointments.Keys);
      if cleaned.Failure? {
        return Failure(Invalid(cleaned.error));
      }
      SaveBillKeepsConsistent(Snapshot(), nextBillId, cleaned.value);
      bills := bills[nextBillId := cleaned.value];
      r := Success(nextBillId);
      nextBillId := nextBillId + 1;
    }

    method UpdateBill(id: Id, f: BillForm) returns (r: Result<Id, Error>)
      requires Valid()
      modifies this
      ensures Valid()
      ensures id !in old(bills) ==> r == Failure(NotFound) && unchanged(this)
      ensures var c := CleanBill(f, old(patients).Keys, old(appointments).Keys);
        && (id in old(bills) && c.Failure? ==> r == Failure(Invalid(c.error)) && unchanged(this))
        && (id in old(bills) && c.Success? ==>
              && r == Success(id)
              && Snapshot() == old(Snapshot()).(bills := old(bills)[id := c.value]))
      ensures Counters() == old(Counters())
    {
      if id !in bills {
        return Failure(NotFound);
      }
      var cleaned := CleanBill(f, patients.Keys, appointments.Keys);
      if cleaned.Failure? {
        return Failure(Invalid(cleaned.error));
      }
      SaveBillKeepsConsistent(Snapshot(), id, cleaned.value);
      bills := bills[id := cleaned.value];
      r := Success(id);
    }

    /**
     * The pay endpoint: the bill is looked up first (404 whatever the
     * request), a non-POST request only shows the confirmation page, and a
     * POST sets `paid` and fills a blank payment method.
     */
    method MarkBillPaid(id: Id, isPost: bool, supplied: Option<string>) returns (r: PayResponse)
      requires Valid()
      modifies this
      ensures Valid()
      ensures id !in old(bills) ==> r == BillNotFound && unchanged(this)
      ensures id in old(bills) && !isPost ==> r == ConfirmPage && unchanged(this)
      ensures id in old(bills) && isPost ==>
        && r == PaidRedirect
        && Snapshot() == old(Snapshot()).(bills := old(bills)[id := Views.MarkPaid(old(bills)[id], supplied)])
      ensures Counters() == old(Counters())
    {
      if id !in bills {
        return BillNotFound;
      }
      if !isPost {
        return ConfirmPage;
      }
      var bill := bills[id];
      bill := bill.(paid := true);
      if bill.paymentMethod == "" {
        bill := bill.(paymentMethod := supplied.GetOr(Views.DefaultPaymentMethod));
      }
      SaveBillKeepsConsistent(Snapshot(), id, bill);
      bills := bills[id := bill];
      r := PaidRedirect;
    }
  }
}
