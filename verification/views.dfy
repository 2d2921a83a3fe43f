/**
 * The read paths and the one workflow of core/views.py: the mark-paid
 * transition on a bill, the dashboard aggregates, and the ordered,
 * paginated list views (10 rows per page).
 */
module Views {
  import opened Wrappers
  import opened Models
  import Ordering

  // ----- Mark a bill paid -----

  /** The method used when the request names none. */
  const DefaultPaymentMethod := "Cash"

  /**
   * What a POST to the pay endpoint does to an existing bill. `supplied` is
   * the submitted `payment_method`, absent when the request has no such key;
   * it is not checked against the choice set.
   */
  function MarkPaid(b: Bill, supplied: Option<string>): (r: Bill)
    ensures r.paid
    ensures b.paymentMethod != "" ==> r.paymentMethod == b.paymentMethod
    ensures b.paymentMethod == "" && supplied.Some? ==> r.paymentMethod == supplied.value
    ensures b.paymentMethod == "" && supplied.None? ==> r.paymentMethod == DefaultPaymentMethod
    ensures r.patient == b.patient && r.appointment == b.appointment
    ensures r.amount == b.amount && r.dateIssued == b.dateIssued
  {
    var chosen := if b.paymentMethod != "" then b.paymentMethod else supplied.GetOr(DefaultPaymentMethod);
    b.(paid := true, paymentMethod := chosen)
  }

  /** Paying twice with the same request leaves the state of paying once. */
  lemma MarkPaidIdempotent(b: Bill, supplied: Option<string>)
    ensures MarkPaid(MarkPaid(b, supplied), supplied) == MarkPaid(b, supplied)
  {
  }

  /** Once a bill has a method, paying it again with any other method changes nothing. */
  lemma RepayKeepsMethod(b: Bill, first: Option<string>, again: Option<string>)
    requires MarkPaid(b, first).paymentMethod != ""
    ensures MarkPaid(MarkPaid(b, first), again) == MarkPaid(b, first)
  {
  }

  /**
   * The stored method need not be a listed choice: a blank bill paid with an
   * unlisted method keeps it, and one paid with an empty method stays blank.
   */
  lemma MarkPaidStoresUncheckedMethod(b: Bill)
    requires b.paymentMethod == ""
    ensures !PaymentMethodChoice(MarkPaid(b, Some("Bitcoin")).paymentMethod)
    ensures MarkPaid(b, Some("")).paid && MarkPaid(b, Some("")).paymentMethod == ""
  {
  }

  // ----- Dashboard -----

  const RecentLimit := 5

  /** The ids `filter(paid=False)` selects. */
  function UnpaidBills(bills: map<Id, Bill>): (r: set<Id>)
    ensures r <= bills.Keys
    // the unpaid and the paid bills split the table between them
    ensures forall b :: b in r ==> !bills[b].paid
    ensures forall b :: b in bills.Keys - r ==> bills[b].paid
    ensures |r| + |bills.Keys - r| == |bills|
  {
    var unpaid := set b | b in bills && !bills[b].paid;
    assert bills.Keys == unpaid + (bills.Keys - unpaid);
    unpaid
  }

  datatype Summary = Summary(
    totalPatients: nat,
    totalDoctors: nat,
    totalAppointments: nat,
    totalTreatments: nat,
    totalBills: nat,
    unpaidBills: nat,
    recentAppointments: seq<Id>,
    recentPatients: seq<Id>)

  function Dashboard(t: Tables): (s: Summary)
    ensures s.totalPatients == |t.patients| && s.totalDoctors == |t.doctors|
    ensures s.totalAppointments == |t.appointments| && s.totalTreatments == |t.treatments|
    ensures s.totalBills == |t.bills|
    ensures s.unpaidBills == |UnpaidBills(t.bills)| <= s.totalBills
    ensures s.recentAppointments == RecentAppointments(t) && |s.recentAppointments| <= RecentLimit
    ensures s.recentPatients == RecentPatients(t) && |s.recentPatients| <= RecentLimit
  {
    var unpaid := UnpaidBills(t.bills);
    Summary(|t.patients|, |t.doctors|, |t.appointments|, |t.treatments|, |t.bills|, |unpaid|,
            RecentAppointments(t), RecentPatients(t))
  }

  /** The dashboard's recent lists: the head of the appointment and patient lists. */
  function RecentAppointments(t: Tables): seq<Id> {
    Ordering.Take(ListRows(t, AppointmentList), RecentLimit)
  }

  function RecentPatients(t: Tables): seq<Id> {
    Ordering.Take(ListRows(t, PatientList), RecentLimit)
  }

  /** Paying an unpaid bill lowers the unpaid count by one; paying a paid one leaves it. */
  lemma MarkPaidUnpaidCount(t: Tables, id: Id, supplied: Option<string>)
    requires id in t.bills
    ensures var after := t.(bills := t.bills[id := MarkPaid(t.bills[id], supplied)]);
      Dashboard(after).unpaidBills ==
        Dashboard(t).unpaidBills - (if t.bills[id].paid then 0 else 1)
  {
    var bills' := t.bills[id := MarkPaid(t.bills[id], supplied)];
    var before := UnpaidBills(t.bills);
    var after := UnpaidBills(bills');
    assert after == before - {id};
  }

  /**
   * Recent appointments: the (at most) five latest by date, newest first;
   * no appointment left out is later than one listed.
   */
  lemma RecentAppointmentsAreLatest(t: Tables)
    ensures var r := RecentAppointments(t);
      && |r| == (if |t.appointments| < RecentLimit then |t.appointments| else RecentLimit)
      && Ordering.Distinct(r)
      && (forall i :: 0 <= i < |r| ==> r[i] in t.appointments)
      && (forall i, j :: 0 <= i < j < |r| ==>
            t.appointments[r[i]].date >= t.appointments[r[j]].date)
      && (forall a, i :: a in t.appointments && a !in r && 0 <= i < |r| ==>
            t.appointments[r[i]].date >= t.appointments[a].date)
  {
    var dates := AppointmentDates(t);
    var r := RecentAppointments(t);
    assert |dates| == |t.appointments|;
    assert r == Ordering.Take(Ordering.OrderBy(dates.Keys, Ordering.Descending(dates)), RecentLimit);
    Ordering.FirstKByDescendingKey(dates, RecentLimit);
    forall i, j | 0 <= i < j < |r| ensures t.appointments[r[i]].date >= t.appointments[r[j]].date {
      assert dates[r[i]] >= dates[r[j]];
    }
    forall a, i | a in t.appointments && a !in r && 0 <= i < |r|
      ensures t.appointments[r[i]].date >= t.appointments[a].date
    {
      assert a in dates;
      assert dates[r[i]] >= dates[a];
    }
  }

  /**
   * Recent patients: the (at most) five last registered, newest first; no
   * patient left out registered later than one listed.
   */
  lemma RecentPatientsAreNewest(t: Tables)
    ensures var r := RecentPatients(t);
      && |r| == (if |t.patients| < RecentLimit then |t.patients| else RecentLimit)
      && Ordering.Distinct(r)
      && (forall i :: 0 <= i < |r| ==> r[i] in t.patients)
      && (forall i, j :: 0 <= i < j < |r| ==>
            t.patients[r[i]].dateRegistered >= t.patients[r[j]].dateRegistered)
      && (forall p, i :: p in t.patients && p !in r && 0 <= i < |r| ==>
            t.patients[r[i]].dateRegistered >= t.patients[p].dateRegistered)
  {
    var registered := RegistrationDates(t);
    var r := RecentPatients(t);
    assert |registered| == |t.patients|;
    assert r == Ordering.Take(Ordering.OrderBy(registered.Keys, Ordering.Descending(registered)), RecentLimit);
    Ordering.FirstKByDescendingKey(registered, RecentLimit);
    forall i, j | 0 <= i < j < |r|
      ensures t.patients[r[i]].dateRegistered >= t.patients[r[j]].dateRegistered
    {
      assert registered[r[i]] >= registered[r[j]];
    }
    forall p, i | p in t.patients && p !in r && 0 <= i < |r|
      ensures t.patients[r[i]].dateRegistered >= t.patients[p].dateRegistered
    {
      assert p in registered;
      assert registered[r[i]] >= registered[p];
    }
  }

  // ----- List views -----

  datatype Listing = PatientList | DoctorList | AppointmentList | TreatmentList | BillList

  /** The sort columns of the list views, keyed by row id. */
  function RegistrationDates(t: Tables): (m: map<Id, int>)
    ensures m.Keys == t.patients.Keys
  {
    map p | p in t.patients :: t.patients[p].dateRegistered
  }

  function AppointmentDates(t: Tables): (m: map<Id, int>)
    ensures m.Keys == t.appointments.Keys
  {
    map a | a in t.appointments :: t.appointments[a].date
  }

  function TreatmentDates(t: Tables): (m: map<Id, int>)
    ensures m.Keys == t.treatments.Keys
  {
    map k | k in t.treatments :: t.treatments[k].treatmentDate
  }

  function IssueDates(t: Tables): (m: map<Id, int>)
    ensures m.Keys == t.bills.Keys
  {
    map b | b in t.bills :: t.bills[b].dateIssued
  }

  function DoctorNames(t: Tables): (m: map<Id, string>)
    ensures m.Keys == t.doctors.Keys
  {
    map d | d in t.doctors :: t.doctors[d].name
  }

  function ListKeys(t: Tables, l: Listing): set<Id> {
    match l
    case PatientList => t.patients.Keys
    case DoctorList => t.doctors.Keys
    case AppointmentList => t.appointments.Keys
    case TreatmentList => t.treatments.Keys
    case BillList => t.bills.Keys
  }

  /**
   * The order of each list: the model's `Meta.ordering`, except that the
   * appointment list (and the dashboard) order by `-date` alone.
   */
  function ListOrder(t: Tables, l: Listing): (nat, nat) -> bool {
    match l
    case PatientList =>
      Ordering.Descending(RegistrationDates(t))
    case DoctorList =>
      Ordering.Ascending(DoctorNames(t))
    case AppointmentList =>
      Ordering.Descending(AppointmentDates(t))
    case TreatmentList =>
      Ordering.Descending(TreatmentDates(t))
    case BillList =>
      Ordering.Descending(IssueDates(t))
  }

  lemma ListOrderIsTotalPreorder(t: Tables, l: Listing)
    ensures Ordering.TotalPreorder(ListOrder(t, l))
  {
    match l
    case PatientList =>
      Ordering.DescendingIsTotalPreorder(RegistrationDates(t));
    case DoctorList =>
      Ordering.AscendingIsTotalPreorder(DoctorNames(t));
    case AppointmentList =>
      Ordering.DescendingIsTotalPreorder(AppointmentDates(t));
    case TreatmentList =>
      Ordering.DescendingIsTotalPreorder(TreatmentDates(t));
    case BillList =>
      Ordering.DescendingIsTotalPreorder(IssueDates(t));
  }

  /** All rows of a list, in list order. */
  function ListRows(t: Tables, l: Listing): seq<Id> {
    Ordering.OrderBy(ListKeys(t, l), ListOrder(t, l))
  }

  /** Every row of the table appears exactly once, in the list's order. */
  lemma ListRowsOrdered(t: Tables, l: Listing)
    ensures |ListRows(t, l)| == |ListKeys(t, l)|
    ensures forall x :: x in ListRows(t, l) <==> x in ListKeys(t, l)
    ensures Ordering.Distinct(ListRows(t, l))
    ensures Ordering.Sorted(ListRows(t, l), ListOrder(t, l))
  {
    ListOrderIsTotalPreorder(t, l);
    Ordering.OrderByDistinctSorted(ListKeys(t, l), ListOrder(t, l));
  }

  /** The doctor list is in ascending name order. */
  lemma DoctorListByName(t: Tables)
    ensures var r := ListRows(t, DoctorList);
      forall i, j :: 0 <= i < j < |r| ==>
        && r[i] in t.doctors && r[j] in t.doctors
        && Ordering.LexLe(t.doctors[r[i]].name, t.doctors[r[j]].name)
  {
    ListRowsOrdered(t, DoctorList);
  }

  // ----- Pagination -----

  const PageSize := 10

  /** The number of pages: enough for every row, and one (empty) page for no rows. */
  function PageCount(count: nat): (n: nat)
    ensures n >= 1
    ensures count <= n * PageSize
    ensures count == 0 || (n - 1) * PageSize < count
  {
    if count == 0 then 1 else (count + PageSize - 1) / PageSize
  }

  /**
   * Page `number` (counted from 1) of the ordered rows, or None when the page
   * does not exist (the list view answers 404).
   */
  function Page(rows: seq<Id>, number: int): (r: Option<seq<Id>>)
    ensures r.Some? <==> 1 <= number <= PageCount(|rows|)
    ensures r.Some? ==> |r.value| <= PageSize
    ensures r.Some? && number < PageCount(|rows|) ==> |r.value| == PageSize
    ensures r.Some? && rows != [] ==> r.value != []
    ensures r.Some? ==> forall i :: 0 <= i < |r.value| ==>
      (number - 1) * PageSize + i < |rows| && r.value[i] == rows[(number - 1) * PageSize + i]
  {
    if 1 <= number <= PageCount(|rows|) then
      var start := (number - 1) * PageSize;
      var stop := if start + PageSize < |rows| then start + PageSize else |rows|;
      Some(rows[start..stop])
    else None
  }

  /** The first n pages laid end to end. */
  function Pages(rows: seq<Id>, n: nat): seq<Id>
    requires n <= PageCount(|rows|)
  {
    if n == 0 then [] else Pages(rows, n - 1) + Page(rows, n).value
  }

  /** The pages of a list, read in order, give back every row exactly once. */
  lemma {:induction false} PagesCoverRows(rows: seq<Id>, n: nat)
    requires n <= PageCount(|rows|)
    ensures Pages(rows, n) == rows[..if n * PageSize < |rows| then n * PageSize else |rows|]
  {
    if n > 0 {
      PagesCoverRows(rows, n - 1);
    }
  }

  lemma AllPagesAreAllRows(rows: seq<Id>)
    ensures Pages(rows, PageCount(|rows|)) == rows
  {
    PagesCoverRows(rows, PageCount(|rows|));
  }

  /** Fifteen rows make two pages: ten, then five; there is no third page. */
  lemma FifteenRowsTwoPages(rows: seq<Id>)
    requires |rows| == 15
    ensures Page(rows, 1) == Some(rows[..10])
    ensures Page(rows, 2) == Some(rows[10..])
    ensures Page(rows, 3).None?
  {
    assert PageCount(15) == 2;
    assert rows[10..15] == rows[10..];
  }

  /**
   * One page of a list view: it exists for page numbers 1 up to the page
   * count of the table, and shows at most ten distinct rows of that table.
   */
  function ListPage(t: Tables, l: Listing, number: int): (r: Option<seq<Id>>)
    ensures r.Some? <==> 1 <= number <= PageCount(|ListKeys(t, l)|)
    ensures r.Some? ==> |r.value| <= PageSize && Ordering.Distinct(r.value)
    ensures r.Some? ==> forall x :: x in r.value ==> x in ListKeys(t, l)
  {
    ListRowsOrdered(t, l);
    PageOfDistinctRows(ListRows(t, l), number);
    Page(ListRows(t, l), number)
  }

  /** A page of a duplicate-free row list is duplicate-free and holds only those rows. */
  lemma PageOfDistinctRows(rows: seq<Id>, number: int)
    requires Ordering.Distinct(rows)
    ensures Page(rows, number).Some? ==> Ordering.Distinct(Page(rows, number).value)
    ensures Page(rows, number).Some? ==> forall x :: x in Page(rows, number).value ==> x in rows
  {
  }
}
