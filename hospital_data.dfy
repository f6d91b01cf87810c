/** The dashboard's `HospitalDataService`: patient, revenue, inventory and
    admission summaries computed from the lists the browser keeps in its
    storage (passed in here as parameters). */
module HospitalData {
  import opened Common
  import InventoryEngine
  import Billing

  /** The defaults shown before anybody has been registered. */
  const DefaultTotalPatients: int := 125
  const DefaultActivePatients: int := 42

  /** The five departments a patient without one is shown under. */
  const Departments: seq<string> := ["Cardiology", "Neurology", "Pediatrics", "Orthopedics", "Oncology"]

  // ---------------------------------------------------------------------
  // getPatientStatistics
  // ---------------------------------------------------------------------

  datatype PatientStats = PatientStats(totalPatients: int, activePatients: int, dischargedPatients: int)

  function IsAdmitted(p: Patient): bool { p.status == "Admitted" }
  function IsDischarged(p: Patient): bool { p.status == "Discharged" }

  /** With nobody registered the defaults (discharged being total minus
      active); otherwise the length and the two status counts, which never
      add up to more than the length. */
  function PatientStatistics(registered: seq<Patient>): (r: PatientStats)
    ensures registered == [] ==> r == PatientStats(125, 42, 83)
    ensures registered != [] ==>
              r.totalPatients == |registered| &&
              r.activePatients == |Filter(registered, IsAdmitted)| &&
              r.dischargedPatients == |Filter(registered, IsDischarged)|
    ensures 0 <= r.activePatients && 0 <= r.dischargedPatients
    ensures r.activePatients + r.dischargedPatients <= r.totalPatients
  {
    if registered == [] then
      PatientStats(DefaultTotalPatients, DefaultActivePatients, DefaultTotalPatients - DefaultActivePatients)
    else
      CountDisjoint(registered, IsAdmitted, IsDischarged);
      PatientStats(|registered|, Count(registered, IsAdmitted), Count(registered, IsDischarged))
  }

  /** Registering a patient (appended with status 'Admitted', as the billing
      desk does) adds one to the total and one to the active patients and
      leaves the discharged count alone. */
  lemma RegistrationCountsAsActive(registered: seq<Patient>, p: Patient)
    requires registered != [] && p.status == "Admitted"
    ensures PatientStatistics(registered + [p]).totalPatients == PatientStatistics(registered).totalPatients + 1
    ensures PatientStatistics(registered + [p]).activePatients == PatientStatistics(registered).activePatients + 1
    ensures PatientStatistics(registered + [p]).dischargedPatients == PatientStatistics(registered).dischargedPatients
  {
    FilterAppend(registered, [p], IsAdmitted);
    FilterAppend(registered, [p], IsDischarged);
    assert Filter([p], IsAdmitted) == [p] by { assert [p][1..] == []; }
    assert Filter([p], IsDischarged) == [] by { assert [p][1..] == []; }
  }

  function AdmittedWithId(id: string): Patient -> bool { (p: Patient) => p.id == id && p.status == "Admitted" }
  function NotDischargedWithId(id: string): Patient -> bool { (p: Patient) => p.id == id && p.status != "Discharged" }

  lemma MarkDischargedTail(ps: seq<Patient>, id: string, day: int)
    requires ps != []
    ensures Billing.MarkDischarged(ps, id, day)[1..] == Billing.MarkDischarged(ps[1..], id, day)
  {
  }

  /** Discharging by id (the bill-generation transition) moves every patient
      with that id into the discharged count: the active count loses the
      admitted ones; the discharged count gains those not yet discharged. */
  lemma {:induction false} DischargeMovesPatients(ps: seq<Patient>, id: string, day: int)
    ensures |Filter(Billing.MarkDischarged(ps, id, day), IsAdmitted)| ==
            |Filter(ps, IsAdmitted)| - |Filter(ps, AdmittedWithId(id))|
    ensures |Filter(Billing.MarkDischarged(ps, id, day), IsDischarged)| ==
            |Filter(ps, IsDischarged)| + |Filter(ps, NotDischargedWithId(id))|
  {
    if ps != [] {
      var m := Billing.MarkDischarged(ps, id, day);
      MarkDischargedTail(ps, id, day);
      DischargeMovesPatients(ps[1..], id, day);
      assert m[0] == (if ps[0].id == id then ps[0].(status := "Discharged", dischargeDate := Some(day)) else ps[0]);
    }
  }

  // ---------------------------------------------------------------------
  // getRevenueStatistics
  // ---------------------------------------------------------------------

  /** `todayRevenue` is a real: in the fallback it is a tenth of the stored
      total (the float rounding of JavaScript is not modelled). */
  datatype RevenueSummary = RevenueSummary(totalRevenue: int, todayRevenue: real, billCount: int)

  function DatedOn(day: int): Bill -> bool { (b: Bill) => b.date == day }

  /** `storedStats` is the `revenueStatistics` entry, None when absent (read
      as all zeros). With a billing history: its total, the total of the
      bills dated today and its length. Without one: the stored total, or
      5000 when that is 0; a tenth of it as today's revenue, or 500; the
      stored bill count. */
  function RevenueStatistics(history: seq<Bill>, storedStats: Option<RevenueStats>, today: int): (r: RevenueSummary)
    ensures history != [] ==>
              r.totalRevenue == SumOf(history, Billing.BillAmount) &&
              r.todayRevenue == SumOf(Filter(history, DatedOn(today)), Billing.BillAmount) as real &&
              r.billCount == |history|
    ensures history == [] && (storedStats.None? || storedStats.value.totalRevenue == 0) ==>
              r.totalRevenue == 5000 && r.todayRevenue == 500.0
    ensures history == [] && storedStats.Some? && storedStats.value.totalRevenue != 0 ==>
              r.totalRevenue == storedStats.value.totalRevenue &&
              r.todayRevenue == storedStats.value.totalRevenue as real / 10.0
    ensures history == [] ==> r.billCount == (if storedStats.Some? then storedStats.value.billCount else 0)
  {
    if history != [] then
      RevenueSummary(SumOf(history, Billing.BillAmount),
                     SumOf(Filter(history, DatedOn(today)), Billing.BillAmount) as real,
                     |history|)
    else
      var stats := if storedStats.Some? then storedStats.value else RevenueStats(0, 0, 0);
      RevenueSummary(if stats.totalRevenue != 0 then stats.totalRevenue else 5000,
                     if stats.totalRevenue != 0 then stats.totalRevenue as real / 10.0 else 500.0,
                     stats.billCount)
  }

  /** A sub-list of bills with non-negative totals sums to no more. */
  lemma {:induction false} FilteredSumAtMost(bills: seq<Bill>, p: Bill -> bool)
    requires forall i :: 0 <= i < |bills| ==> bills[i].total >= 0
    ensures 0 <= SumOf(Filter(bills, p), Billing.BillAmount) <= SumOf(bills, Billing.BillAmount)
  {
    if bills != [] {
      FilteredSumAtMost(bills[1..], p);
      SumAppend(if p(bills[0]) then [bills[0]] else [], Filter(bills[1..], p), Billing.BillAmount);
    }
  }

  /** Today's revenue never exceeds the total revenue when no bill total is
      negative (as for bills built from the price table). */
  lemma TodayWithinTotal(history: seq<Bill>, today: int)
    requires history != []
    requires forall i :: 0 <= i < |history| ==> history[i].total >= 0
    ensures 0.0 <= RevenueStatistics(history, None, today).todayRevenue <=
            RevenueStatistics(history, None, today).totalRevenue as real
  {
    FilteredSumAtMost(history, DatedOn(today));
  }

  /** A new bill appended to the history adds its total to the revenue, to
      today's revenue exactly when it is dated today, and one to the count;
      the stored counters play no part once there is a history. */
  lemma NewBillInSummary(history: seq<Bill>, b: Bill, storedStats: Option<RevenueStats>, today: int)
    requires history != []
    ensures RevenueStatistics(history + [b], storedStats, today).totalRevenue ==
            RevenueStatistics(history, storedStats, today).totalRevenue + b.total
    ensures RevenueStatistics(history + [b], storedStats, today).todayRevenue ==
            RevenueStatistics(history, storedStats, today).todayRevenue + (if b.date == today then b.total as real else 0.0)
    ensures RevenueStatistics(history + [b], storedStats, today).billCount ==
            RevenueStatistics(history, storedStats, today).billCount + 1
  {
    SumAppend(history, [b], Billing.BillAmount);
    FilterAppend(history, [b], DatedOn(today));
    SumAppend(Filter(history, DatedOn(today)), Filter([b], DatedOn(today)), Billing.BillAmount);
    assert Filter([b], DatedOn(today)) == (if b.date == today then [b] else []) by { assert [b][1..] == []; }
  }

  // ---------------------------------------------------------------------
  // getInventoryStatus
  // ---------------------------------------------------------------------

  datatype LowStockRow = LowStockRow(name: string, quantity: int, category: string)
  datatype InventoryStatus = InventoryStatus(totalItems: int, lowStockItems: seq<LowStockRow>, inventoryValue: int)

  function LowRow(s: Supply): LowStockRow { LowStockRow(s.name, StockOr0(s), s.category) }

  function LowRows(inv: seq<Supply>): (r: seq<LowStockRow>)
    ensures |r| == |Filter(inv, InventoryEngine.IsLow)|
    ensures forall i :: 0 <= i < |r| ==> r[i] == LowRow(Filter(inv, InventoryEngine.IsLow)[i])
  {
    var low := Filter(inv, InventoryEngine.IsLow);
    seq(|low|, i requires 0 <= i < |low| => LowRow(low[i]))
  }

  /** An empty inventory gives zeros and no rows. Otherwise the stock and
      value totals (absent stock or price as 0) and one row per item with
      0 < stock < 10, in inventory order; every such item has its row. */
  function GetInventoryStatus(inv: seq<Supply>): (r: InventoryStatus)
    ensures inv == [] ==> r == InventoryStatus(0, [], 0)
    ensures r.totalItems == SumOf(inv, StockOr0)
    ensures r.inventoryValue == SumOf(inv, InventoryEngine.SupplyValue)
    ensures forall i :: 0 <= i < |r.lowStockItems| ==> 0 < r.lowStockItems[i].quantity < 10
    ensures forall j :: 0 <= j < |inv| && InventoryEngine.IsLow(inv[j]) ==> LowRow(inv[j]) in r.lowStockItems
    ensures r.lowStockItems == LowRows(inv)
  {
    if inv == [] then InventoryStatus(0, [], 0)
    else
      var rows := LowRows(inv);
      var low := Filter(inv, InventoryEngine.IsLow);
      assert forall i :: 0 <= i < |rows| ==> InventoryEngine.IsLow(low[i]);
      assert forall j :: 0 <= j < |inv| && InventoryEngine.IsLow(inv[j]) ==> LowRow(inv[j]) in rows by {
        forall j | 0 <= j < |inv| && InventoryEngine.IsLow(inv[j]) ensures LowRow(inv[j]) in rows {
          var k :| 0 <= k < |low| && low[k] == inv[j];
          assert rows[k] == LowRow(inv[j]);
        }
      }
      InventoryStatus(SumOf(inv, StockOr0), rows, SumOf(inv, InventoryEngine.SupplyValue))
  }

  /** The dashboard and the inventory screen agree: the same stock and value
      totals, and as many low-stock rows as the screen's low-stock count. */
  lemma DashboardAgreesWithInventory(inv: seq<Supply>)
    ensures GetInventoryStatus(inv).totalItems == InventoryEngine.GetInventoryStats(inv).totalItems
    ensures GetInventoryStatus(inv).inventoryValue == InventoryEngine.GetInventoryStats(inv).totalValue
    ensures |GetInventoryStatus(inv).lowStockItems| == InventoryEngine.GetInventoryStats(inv).lowStockCount
  {
  }

  // ---------------------------------------------------------------------
  // getRecentAdmissions
  // ---------------------------------------------------------------------

  /** A draw of `Math.floor(Math.random() * 5)`. */
  type DeptIndex = k: int | 0 <= k < 5

  datatype Admission = Admission(patientId: string, patientName: string, department: string,
                                 admissionDate: int, status: string)

  /** `patient.department || <random department>`: an absent or empty
      department is replaced by the drawn one. */
  function DepartmentShown(p: Patient, drawn: DeptIndex): (d: string)
    ensures p.department.Some? && p.department.value != "" ==> d == p.department.value
    ensures (p.department.None? || p.department.value == "") ==> d == Departments[drawn]
    ensures d != ""
  {
    if p.department.Some? && p.department.value != "" then p.department.value else Departments[drawn]
  }

  function AdmissionOf(p: Patient, drawn: DeptIndex): Admission {
    Admission(p.id, p.name, DepartmentShown(p, drawn), p.admissionDate, p.status)
  }

  /** `draw(i)` is the department drawn for the i-th row. At most ten rows,
      the first ten registered patients in order, copying id, name,
      admission date and status. */
  function RecentAdmissions(registered: seq<Patient>, draw: nat -> DeptIndex): (r: seq<Admission>)
    ensures |r| == if |registered| < 10 then |registered| else 10
    ensures forall i :: 0 <= i < |r| ==>
              r[i].patientId == registered[i].id && r[i].patientName == registered[i].name &&
              r[i].admissionDate == registered[i].admissionDate && r[i].status == registered[i].status &&
              r[i].department == DepartmentShown(registered[i], draw(i))
  {
    var n := if |registered| < 10 then |registered| else 10;
    var r := seq(n, i requires 0 <= i < n => AdmissionOf(registered[i], draw(i)));
    assert forall i :: 0 <= i < n ==> r[i] == AdmissionOf(registered[i], draw(i));
    r
  }

  /** Registrations are appended, so once ten patients exist a newly
      registered patient never shows among the "recent" admissions. */
  lemma NewestAdmissionNotShown(registered: seq<Patient>, p: Patient, draw: nat -> DeptIndex)
    requires |registered| >= 10
    ensures RecentAdmissions(registered + [p], draw) == RecentAdmissions(registered, draw)
    ensures forall i :: 0 <= i < |RecentAdmissions(registered + [p], draw)| ==>
              RecentAdmissions(registered + [p], draw)[i] == AdmissionOf(registered[i], draw(i))
  {
    var a := RecentAdmissions(registered + [p], draw);
    var b := RecentAdmissions(registered, draw);
    assert |a| == |b| == 10;
    forall i | 0 <= i < 10 ensures a[i] == b[i] {
      assert (registered + [p])[i] == registered[i];
    }
  }
}
