/** The team page: the search over names and positions, and each
    employee's completed appointments and earnings. */
module EmployeeList {
  import opened Seqs
  import opened Text
  import opened Types
  import opened DataContext

  // ---------------------------------------------------------------- search

  /** The lower-cased name or position includes the lower-cased query. */
  function EmployeeMatches(query: string): Employee -> bool
  {
    (e: Employee) => Contains(ToLower(e.name), ToLower(query)) || Contains(ToLower(e.position), ToLower(query))
  }

  /** `filteredEmployees` */
  function FilteredEmployees(employees: seq<Employee>, query: string): (r: seq<Employee>)
    ensures Subseq(r, employees)
    ensures forall e :: e in r <==> e in employees && EmployeeMatches(query)(e)
  {
    FilterIsSubseq(employees, EmployeeMatches(query));
    Filter(employees, EmployeeMatches(query))
  }

  /** An empty search keeps the whole team, in order. */
  lemma EmptySearchKeepsEveryone(employees: seq<Employee>)
    ensures FilteredEmployees(employees, "") == employees
  {
    forall i | 0 <= i < |employees|
      ensures EmployeeMatches("")(employees[i])
    {
      ContainsEmpty(ToLower(employees[i].name));
    }
    FilterAll(employees, EmployeeMatches(""));
  }

  // ---------------------------------------------------------------- completed work

  function HasEmployeeId(id: Id): Employee -> bool
  {
    (e: Employee) => e.id == id
  }

  /** `employees.find(e => e.id === employeeId)` */
  function FindEmployee(employees: seq<Employee>, id: Id): (r: Option<Employee>)
    ensures r.Some? ==> r.value in employees && r.value.id == id
    ensures r.None? <==> forall i :: 0 <= i < |employees| ==> employees[i].id != id
  {
    Find(employees, HasEmployeeId(id))
  }

  /** Completed, and listed among the employee's appointment ids; an unknown
      employee (`undefined?.includes`) lists none. */
  function CompletedBy(employees: seq<Employee>, employeeId: Id): Appointment -> bool
  {
    (a: Appointment) =>
      a.status == Completed &&
      match FindEmployee(employees, employeeId)
      case Some(e) => a.id in e.appointmentIds
      case None => false
  }

  /** The completed appointments whose id the employee lists, in order. */
  function CompletedAppointmentsOf(apps: seq<Appointment>, employees: seq<Employee>, employeeId: Id): (r: seq<Appointment>)
    ensures forall i :: 0 <= i < |r| ==> r[i] in apps && r[i].status == Completed
    ensures FindEmployee(employees, employeeId).None? ==> r == []
  {
    if FindEmployee(employees, employeeId).None? then
      FilterNone(apps, CompletedBy(employees, employeeId));
      Filter(apps, CompletedBy(employees, employeeId))
    else
      Filter(apps, CompletedBy(employees, employeeId))
  }

  /** `getCompletedAppointmentsCount` */
  function CompletedCount(apps: seq<Appointment>, employees: seq<Employee>, employeeId: Id): (n: nat)
    ensures n <= |apps|
  {
    |CompletedAppointmentsOf(apps, employees, employeeId)|
  }

  /** `getTotalEarnings`: the amounts of the same appointments added up. */
  function TotalEarnings(apps: seq<Appointment>, employees: seq<Employee>, employeeId: Id): int
  {
    Revenue(CompletedAppointmentsOf(apps, employees, employeeId))
  }

  /** The appointments counted are exactly the completed ones whose id the
      employee lists. */
  lemma CountedAppointments(apps: seq<Appointment>, employees: seq<Employee>, e: Employee, a: Appointment)
    requires FindEmployee(employees, e.id) == Some(e)
    ensures a in CompletedAppointmentsOf(apps, employees, e.id) <==>
            a in apps && a.status == Completed && a.id in e.appointmentIds
  {
  }

  /** An id that names no employee earns nothing and has no appointments. */
  lemma UnknownEmployeeZero(apps: seq<Appointment>, employees: seq<Employee>, employeeId: Id)
    requires forall i :: 0 <= i < |employees| ==> employees[i].id != employeeId
    ensures CompletedCount(apps, employees, employeeId) == 0
    ensures TotalEarnings(apps, employees, employeeId) == 0
  {
    FilterNone(apps, CompletedBy(employees, employeeId));
  }

  /** Booking or cancelling appointments changes neither figure: only
      completed ones count. */
  lemma OpenAppointmentsDoNotCount(apps: seq<Appointment>, more: seq<Appointment>,
                                  employees: seq<Employee>, employeeId: Id)
    requires forall i :: 0 <= i < |more| ==> more[i].status != Completed
    ensures CompletedCount(apps + more, employees, employeeId) == CompletedCount(apps, employees, employeeId)
    ensures TotalEarnings(apps + more, employees, employeeId) == TotalEarnings(apps, employees, employeeId)
  {
    var p := CompletedBy(employees, employeeId);
    FilterConcat(apps, more, p);
    FilterNone(more, p);
    assert Filter(apps, p) + [] == Filter(apps, p);
  }

  /** Ids in `appointmentIds` that match no appointment contribute nothing:
      adding them to the employee changes neither figure. */
  lemma DanglingIdsDoNotCount(apps: seq<Appointment>, e: Employee, extra: seq<Id>)
    requires forall i, j :: 0 <= i < |apps| && 0 <= j < |extra| ==> apps[i].id != extra[j]
    ensures CompletedAppointmentsOf(apps, [e.(appointmentIds := e.appointmentIds + extra)], e.id) ==
            CompletedAppointmentsOf(apps, [e], e.id)
  {
    var e' := e.(appointmentIds := e.appointmentIds + extra);
    assert FindEmployee([e'], e.id) == Some(e');
    assert FindEmployee([e], e.id) == Some(e);
    forall i | 0 <= i < |apps|
      ensures CompletedBy([e'], e.id)(apps[i]) == CompletedBy([e], e.id)(apps[i])
    {
      assert apps[i].id !in extra;
    }
    FilterSame(apps, CompletedBy([e'], e.id), CompletedBy([e], e.id));
  }

  function IsDone(): Appointment -> bool
  {
    (a: Appointment) => a.status == Completed
  }

  /** With amounts that are never negative, one employee's earnings are at
      most the revenue of all completed appointments. */
  lemma EarningsWithinCompletedRevenue(apps: seq<Appointment>, employees: seq<Employee>, employeeId: Id)
    requires forall i :: 0 <= i < |apps| ==> apps[i].totalAmount >= 0
    ensures 0 <= TotalEarnings(apps, employees, employeeId) <= Revenue(Filter(apps, IsDone()))
  {
    SumByFilterMonotone(apps, CompletedBy(employees, employeeId), IsDone(), Amount);
    SumByNonNegative(CompletedAppointmentsOf(apps, employees, employeeId), Amount);
  }

  // ---------------------------------------------------------------- the page

  class EmployeeListView {
    var query: string
    /** The employee whose deletion awaits confirmation. */
    var selected: Option<Employee>

    constructor ()
      ensures query == "" && selected == None
    {
      query := "";
      selected := None;
    }

    /** `confirmDelete`: deletes the selected employee and clears the selection. */
    method ConfirmDelete(store: DataStore)
      requires store.Valid()
      modifies this, store
      ensures store.Valid()
      ensures old(selected).Some? ==>
        store.employees == RemoveWhere(old(store.employees), EmployeeKey, old(selected).value.id)
      ensures old(selected).None? ==> store.employees == old(store.employees)
      ensures selected == None && query == old(query)
      ensures store.clients == old(store.clients) && store.services == old(store.services)
      ensures store.appointments == old(store.appointments) && store.transactions == old(store.transactions)
    {
      if selected.Some? {
        store.DeleteEmployee(selected.value.id);
        selected := None;
      }
    }
  }
}
