/** The application's data store: five collections, their add / update /
    delete operations, the booking rule that stamps a client's last visit,
    and the dashboard figures. */
module DataContext {
  import opened Seqs
  import opened Text
  import opened Calendar
  import opened Types

  // ---------------------------------------------------------------- ids

  /** The length of the longest id in `ids`. */
  function MaxLength(ids: seq<Id>): (n: nat)
    ensures forall i :: 0 <= i < |ids| ==> |ids[i]| <= n
  {
    if ids == [] then 0
    else
      var m := MaxLength(ids[1..]);
      assert forall i :: 1 <= i < |ids| ==> ids[i] == ids[1..][i - 1];
      if |ids[0]| > m then |ids[0]| else m
  }

  /** A new id, distinct from every id in `used`: stands for `uuidv4()`. */
  function FreshId(used: seq<Id>): (r: Id)
    ensures r !in used
  {
    var r := seq(MaxLength(used) + 1, _ => 'u');
    assert forall i :: 0 <= i < |used| ==> used[i] != r;
    r
  }

  // ---------------------------------------------------------------- generic update and delete

  /** `s.map(x => key(x) === id ? f(x) : x)` */
  function UpdateWhere<T>(s: seq<T>, key: T -> Id, id: Id, f: T -> T): (r: seq<T>)
    ensures |r| == |s|
    ensures forall i :: 0 <= i < |s| && key(s[i]) != id ==> r[i] == s[i]
    ensures forall i :: 0 <= i < |s| && key(s[i]) == id ==> r[i] == f(s[i])
  {
    seq(|s|, i requires 0 <= i < |s| => if key(s[i]) == id then f(s[i]) else s[i])
  }

  /** Updating by an id nobody has changes nothing. */
  lemma UpdateAbsent<T>(s: seq<T>, key: T -> Id, id: Id, f: T -> T)
    requires forall i :: 0 <= i < |s| ==> key(s[i]) != id
    ensures UpdateWhere(s, key, id, f) == s
  {
  }

  /** An update that keeps keys keeps the sequence of keys. */
  lemma UpdateKeepsKeys<T>(s: seq<T>, key: T -> Id, id: Id, f: T -> T)
    requires forall x :: key(f(x)) == key(x)
    ensures Map(UpdateWhere(s, key, id, f), key) == Map(s, key)
  {
  }

  /** `s.filter(x => key(x) !== id)` */
  function RemoveWhere<T>(s: seq<T>, key: T -> Id, id: Id): (r: seq<T>)
    ensures forall i :: 0 <= i < |r| ==> key(r[i]) != id
    ensures forall i :: 0 <= i < |s| && key(s[i]) != id ==> s[i] in r
    ensures Subseq(r, s)
  {
    FilterIsSubseq(s, x => key(x) != id);
    Filter(s, x => key(x) != id)
  }

  /** Deleting twice is deleting once, and deleting what is absent changes nothing. */
  lemma RemoveIdempotent<T>(s: seq<T>, key: T -> Id, id: Id)
    ensures RemoveWhere(RemoveWhere(s, key, id), key, id) == RemoveWhere(s, key, id)
    ensures (forall i :: 0 <= i < |s| ==> key(s[i]) != id) ==> RemoveWhere(s, key, id) == s
  {
    var r := RemoveWhere(s, key, id);
    FilterAll(r, x => key(x) != id);
    if forall i :: 0 <= i < |s| ==> key(s[i]) != id {
      FilterAll(s, x => key(x) != id);
    }
  }

  /** Exactly the copies of records carrying `id` disappear. */
  lemma RemoveCounts<T>(s: seq<T>, key: T -> Id, id: Id, x: T)
    ensures multiset(RemoveWhere(s, key, id))[x] == if key(x) != id then multiset(s)[x] else 0
  {
    FilterMultiset(s, y => key(y) != id, x);
  }

  // ---------------------------------------------------------------- the records the add operations build

  function ClientKey(c: Client): Id { c.id }
  function ServiceKey(s: Service): Id { s.id }
  function AppointmentKey(a: Appointment): Id { a.id }
  function EmployeeKey(e: Employee): Id { e.id }
  function TransactionKey(t: Transaction): Id { t.id }

  /** `{ ...client, id, createdAt, lastVisit: null }` */
  function NewClientRecord(c: ClientInput, id: Id, createdAt: string): (r: Client)
    ensures r.id == id && r.createdAt == createdAt && r.lastVisit == None
    ensures r.name == c.name && r.phone == c.phone && r.email == c.email
    ensures r.preferredServices == c.preferredServices && r.notes == c.notes
  {
    Client(id, c.name, c.phone, c.email, c.preferredServices, c.notes, createdAt, None)
  }

  function NewServiceRecord(s: ServiceInput, id: Id): (r: Service)
    ensures r.id == id
    ensures ServiceInput(r.name, r.description, r.duration, r.price, r.category) == s
  {
    Service(id, s.name, s.description, s.duration, s.price, s.category)
  }

  function NewAppointmentRecord(a: AppointmentInput, id: Id): (r: Appointment)
    ensures r.id == id
    ensures AppointmentInput(r.clientId, r.date, r.startTime, r.endTime, r.serviceIds,
                             r.status, r.totalAmount, r.notes) == a
  {
    Appointment(id, a.clientId, a.date, a.startTime, a.endTime, a.serviceIds, a.status, a.totalAmount, a.notes)
  }

  function NewTransactionRecord(t: TransactionInput, id: Id): (r: Transaction)
    ensures r.id == id
    ensures TransactionInput(r.appointmentId, r.date, r.amount, r.paymentMethod, r.status) == t
  {
    Transaction(id, t.appointmentId, t.date, t.amount, t.paymentMethod, t.status)
  }

  function NewEmployeeRecord(e: EmployeeInput, id: Id): (r: Employee)
    ensures r.id == id
    ensures EmployeeInput(r.name, r.position, r.appointmentIds) == e
  {
    Employee(id, e.name, e.position, e.appointmentIds)
  }

  // ---------------------------------------------------------------- per-collection updates and deletes

  function UpdateClients(cs: seq<Client>, id: Id, p: ClientPatch): seq<Client>
  {
    UpdateWhere(cs, ClientKey, id, c => PatchClient(c, p))
  }

  function UpdateServices(ss: seq<Service>, id: Id, p: ServicePatch): seq<Service>
  {
    UpdateWhere(ss, ServiceKey, id, s => PatchService(s, p))
  }

  function UpdateAppointments(apps: seq<Appointment>, id: Id, p: AppointmentPatch): seq<Appointment>
  {
    UpdateWhere(apps, AppointmentKey, id, a => PatchAppointment(a, p))
  }

  function UpdateEmployees(es: seq<Employee>, id: Id, p: EmployeePatch): seq<Employee>
  {
    UpdateWhere(es, EmployeeKey, id, e => PatchEmployee(e, p))
  }

  /** The patch `addAppointment` sends to the booked client. */
  function VisitPatch(date: string): ClientPatch
  {
    NoClientChange.(lastVisit := Some(Some(date)))
  }

  /** Booking stamps the client with the appointment's date, whatever the
      earlier last visit was, and leaves every other field and client alone;
      a booking for an unknown client changes no client. */
  lemma BookingStampsLastVisit(cs: seq<Client>, a: AppointmentInput)
    ensures |UpdateClients(cs, a.clientId, VisitPatch(a.date))| == |cs|
    ensures forall i :: 0 <= i < |cs| && cs[i].id == a.clientId ==>
              UpdateClients(cs, a.clientId, VisitPatch(a.date))[i] == cs[i].(lastVisit := Some(a.date))
    ensures forall i :: 0 <= i < |cs| && cs[i].id != a.clientId ==>
              UpdateClients(cs, a.clientId, VisitPatch(a.date))[i] == cs[i]
    ensures (forall i :: 0 <= i < |cs| ==> cs[i].id != a.clientId) ==>
              UpdateClients(cs, a.clientId, VisitPatch(a.date)) == cs
  {
    var r := UpdateClients(cs, a.clientId, VisitPatch(a.date));
    forall i | 0 <= i < |cs| && cs[i].id == a.clientId
      ensures r[i] == cs[i].(lastVisit := Some(a.date))
    {
      assert r[i] == PatchClient(cs[i], VisitPatch(a.date));
    }
  }

  // ---------------------------------------------------------------- dashboard

  function Amount(a: Appointment): int { a.totalAmount }

  /** The total of `totalAmount` over `apps`: the `reduce` of the dashboard and the finances page. */
  function Revenue(apps: seq<Appointment>): int
  {
    SumBy(apps, Amount)
  }

  /** The tests the dashboard filters by; each also demands `completed`. */
  function CompletedOn(today: string): Appointment -> bool
  {
    (a: Appointment) => a.date == today && a.status == Completed
  }

  function CompletedInMonthOf(month: string): Appointment -> bool
  {
    (a: Appointment) => StartsWith(a.date, month) && a.status == Completed
  }

  function CompletedInWeekOf(now: Moment): Appointment -> bool
    requires ValidMoment(now)
  {
    (a: Appointment) => InWeek(a.date, now) && a.status == Completed
  }

  /** The week test as the code writes it. */
  function CompletedInWeekAsWrittenOf(now: Moment): Appointment -> bool
    requires ValidMoment(now)
  {
    (a: Appointment) => InWeekAsWritten(a.date, now) && a.status == Completed
  }

  function CompletedToday(apps: seq<Appointment>, today: string): seq<Appointment>
  {
    Filter(apps, CompletedOn(today))
  }

  function CompletedInMonth(apps: seq<Appointment>, month: string): seq<Appointment>
  {
    Filter(apps, CompletedInMonthOf(month))
  }

  function CompletedInWeek(apps: seq<Appointment>, now: Moment): seq<Appointment>
    requires ValidMoment(now)
  {
    Filter(apps, CompletedInWeekOf(now))
  }

  function CompletedInWeekAsWritten(apps: seq<Appointment>, now: Moment): seq<Appointment>
    requires ValidMoment(now)
  {
    Filter(apps, CompletedInWeekAsWrittenOf(now))
  }

  /** The intended dashboard figures at the moment `now`, with the week taken
      as Sunday to Saturday. */
  function Stats(clients: seq<Client>, apps: seq<Appointment>, now: Moment): (r: DashboardStats)
    requires ValidMoment(now)
    ensures r.totalClients == |clients|
    ensures forall i :: 0 <= i < |apps| && apps[i].status != Completed ==>
              apps[i] !in CompletedToday(apps, FormatDate(now.date)) &&
              apps[i] !in CompletedInWeek(apps, now) &&
              apps[i] !in CompletedInMonth(apps, FormatMonth(now.date))
  {
    var today := CompletedToday(apps, FormatDate(now.date));
    var week := CompletedInWeek(apps, now);
    var month := CompletedInMonth(apps, FormatMonth(now.date));
    DashboardStats(
      |clients|,
      |today|, Revenue(today),
      |week|, Revenue(week),
      |month|, Revenue(month))
  }

  /** The figures as the code computes them, with the week test as written. */
  function StatsAsWritten(clients: seq<Client>, apps: seq<Appointment>, now: Moment): (r: DashboardStats)
    requires ValidMoment(now)
    ensures r == Stats(clients, apps, now).(
      appointmentsThisWeek := |CompletedInWeekAsWritten(apps, now)|,
      revenueThisWeek := Revenue(CompletedInWeekAsWritten(apps, now)))
  {
    var today := CompletedToday(apps, FormatDate(now.date));
    var week := CompletedInWeekAsWritten(apps, now);
    var month := CompletedInMonth(apps, FormatMonth(now.date));
    DashboardStats(
      |clients|,
      |today|, Revenue(today),
      |week|, Revenue(week),
      |month|, Revenue(month))
  }

  /** Today's appointments count among the month's, and with amounts that are
      never negative the day's revenue is at most the month's. */
  lemma TodayWithinMonth(clients: seq<Client>, apps: seq<Appointment>, now: Moment)
    requires ValidMoment(now)
    ensures Stats(clients, apps, now).appointmentsToday <= Stats(clients, apps, now).appointmentsThisMonth
    ensures (forall i :: 0 <= i < |apps| ==> apps[i].totalAmount >= 0) ==>
              Stats(clients, apps, now).revenueToday <= Stats(clients, apps, now).revenueThisMonth
  {
    var p := CompletedOn(FormatDate(now.date));
    var q := CompletedInMonthOf(FormatMonth(now.date));
    assert forall x :: x in apps && p(x) ==> q(x);
    FilterMonotone(apps, p, q);
    if forall i :: 0 <= i < |apps| ==> apps[i].totalAmount >= 0 {
      SumByFilterMonotone(apps, p, q, Amount);
    }
  }

  /** The week's count and revenue are the same under both tests when no
      appointment is dated on the week's Sunday. */
  lemma WeekStatsAgreeWithoutSunday(clients: seq<Client>, apps: seq<Appointment>, now: Moment)
    requires ValidMoment(now)
    requires forall i :: 0 <= i < |apps| ==>
               ParseDate(apps[i].date).None? || ParseDate(apps[i].date).value != WeekStart(now).date
    ensures StatsAsWritten(clients, apps, now) == Stats(clients, apps, now)
  {
    var p := CompletedInWeekOf(now);
    var q := CompletedInWeekAsWrittenOf(now);
    forall i | 0 <= i < |apps|
      ensures p(apps[i]) == q(apps[i])
    {
      if ParseDate(apps[i].date).Some? {
        WeekTestsAgreeAfterSunday(apps[i].date, now);
      }
    }
    FilterSame(apps, p, q);
  }

  /** A completed appointment on the week's Sunday, booked with a positive
      amount, is missed by the written test unless `now` is exactly midnight. */
  lemma WeekAsWrittenMissesSundayRevenue(a: Appointment, now: Moment)
    requires ValidMoment(now) && now.ms > 0 && 1 <= WeekStart(now).date.year <= 9999
    requires a.date == FormatDate(WeekStart(now).date) && a.status == Completed
    ensures Stats([], [a], now).appointmentsThisWeek == 1
    ensures StatsAsWritten([], [a], now).appointmentsThisWeek == 0
  {
    WeekAsWrittenMissesSunday(now);
    var p := CompletedInWeekOf(now);
    var q := CompletedInWeekAsWrittenOf(now);
    assert Filter([a], p) == [a] by { FilterAll([a], p); }
    assert Filter([a], q) == [] by { FilterNone([a], q); }
  }

  // ---------------------------------------------------------------- the store

  /** The loaded state of one collection: what was saved, or the seed. */
  function Loaded<T>(saved: Option<seq<T>>, seed: seq<T>): (r: seq<T>)
    ensures saved.None? ==> r == seed
    ensures saved.Some? ==> r == saved.value
  {
    if saved.Some? then saved.value else seed
  }

  function AllIds(clients: seq<Client>, services: seq<Service>, appointments: seq<Appointment>,
                  transactions: seq<Transaction>, employees: seq<Employee>): seq<Id>
  {
    Map(clients, ClientKey) + Map(services, ServiceKey) + Map(appointments, AppointmentKey) +
    Map(transactions, TransactionKey) + Map(employees, EmployeeKey)
  }

  class DataStore {
    var clients: seq<Client>
    var services: seq<Service>
    var appointments: seq<Appointment>
    var transactions: seq<Transaction>
    var employees: seq<Employee>
    /** Every id ever loaded or issued; a fresh id avoids all of them. */
    var issued: seq<Id>

    ghost predicate Valid()
      reads this
    {
      (forall i :: 0 <= i < |clients| ==> clients[i].id in issued) &&
      (forall i :: 0 <= i < |services| ==> services[i].id in issued) &&
      (forall i :: 0 <= i < |appointments| ==> appointments[i].id in issued) &&
      (forall i :: 0 <= i < |transactions| ==> transactions[i].id in issued) &&
      (forall i :: 0 <= i < |employees| ==> employees[i].id in issued)
    }

    /** Every id is unique within its own collection. */
    ghost predicate IdsUnique()
      reads this
    {
      NoDuplicates(Map(clients, ClientKey)) && NoDuplicates(Map(services, ServiceKey)) &&
      NoDuplicates(Map(appointments, AppointmentKey)) && NoDuplicates(Map(transactions, TransactionKey)) &&
      NoDuplicates(Map(employees, EmployeeKey))
    }

    /** The store starts from the saved collections, each falling back to its seed. */
    constructor (savedClients: Option<seq<Client>>, savedServices: Option<seq<Service>>,
                 savedAppointments: Option<seq<Appointment>>, savedTransactions: Option<seq<Transaction>>,
                 savedEmployees: Option<seq<Employee>>,
                 seedClients: seq<Client>, seedServices: seq<Service>,
                 seedAppointments: seq<Appointment>, seedEmployees: seq<Employee>)
      ensures Valid()
      ensures clients == Loaded(savedClients, seedClients)
      ensures services == Loaded(savedServices, seedServices)
      ensures appointments == Loaded(savedAppointments, seedAppointments)
      ensures transactions == Loaded(savedTransactions, [])
      ensures employees == Loaded(savedEmployees, seedEmployees)
      ensures IdsUnique() <==>
                NoDuplicates(Map(Loaded(savedClients, seedClients), ClientKey)) &&
                NoDuplicates(Map(Loaded(savedServices, seedServices), ServiceKey)) &&
                NoDuplicates(Map(Loaded(savedAppointments, seedAppointments), AppointmentKey)) &&
                NoDuplicates(Map(Loaded(savedTransactions, []), TransactionKey)) &&
                NoDuplicates(Map(Loaded(savedEmployees, seedEmployees), EmployeeKey))
    {
      clients := Loaded(savedClients, seedClients);
      services := Loaded(savedServices, seedServices);
      appointments := Loaded(savedAppointments, seedAppointments);
      transactions := Loaded(savedTransactions, []);
      employees := Loaded(savedEmployees, seedEmployees);
      new;
      issued := AllIds(clients, services, appointments, transactions, employees);
      assert forall i :: 0 <= i < |clients| ==> clients[i].id == Map(clients, ClientKey)[i];
      assert forall i :: 0 <= i < |services| ==> services[i].id == Map(services, ServiceKey)[i];
      assert forall i :: 0 <= i < |appointments| ==> appointments[i].id == Map(appointments, AppointmentKey)[i];
      assert forall i :: 0 <= i < |transactions| ==> transactions[i].id == Map(transactions, TransactionKey)[i];
      assert forall i :: 0 <= i < |employees| ==> employees[i].id == Map(employees, EmployeeKey)[i];
    }

    /** `uuidv4()`: an id not issued before. */
    method NewId() returns (id: Id)
      requires Valid()
      modifies this
      ensures Valid()
      ensures id == FreshId(old(issued)) && id !in old(issued)
      ensures issued == old(issued) + [id]
      ensures clients == old(clients) && services == old(services) && appointments == old(appointments)
      ensures transactions == old(transactions) && employees == old(employees)
    {
      id := FreshId(issued);
      issued := issued + [id];
    }

    /** `addClient`: appends the client with a fresh id, today's date as
        `createdAt` and no last visit. */
    method AddClient(c: ClientInput, today: Date)
      requires Valid() && ValidDate(today)
      modifies this
      ensures Valid()
      ensures old(IdsUnique()) ==> IdsUnique()
      ensures clients == old(clients) + [NewClientRecord(c, FreshId(old(issued)), FormatDate(today))]
      ensures FreshId(old(issued)) !in old(issued)
      ensures issued == old(issued) + [FreshId(old(issued))]
      ensures services == old(services) && appointments == old(appointments)
      ensures transactions == old(transactions) && employees == old(employees)
    {
      var id := NewId();
      var x := NewClientRecord(c, id, FormatDate(today));
      if IdsUnique() {
        AddKeepsIdsUnique(clients, ClientKey, x, old(issued));
      }
      clients := clients + [x];
    }

    /** `updateClient`: shallow-merges `p` into the clients with that id. */
    method UpdateClient(id: Id, p: ClientPatch)
      requires Valid()
      modifies this
      ensures Valid()
      ensures old(IdsUnique()) ==> IdsUnique()
      ensures clients == UpdateClients(old(clients), id, p)
      ensures issued == old(issued) && services == old(services) && appointments == old(appointments)
      ensures transactions == old(transactions) && employees == old(employees)
    {
      UpdateKeepsKeys(clients, ClientKey, id, c => PatchClient(c, p));
      clients := UpdateClients(clients, id, p);
    }

    /** `deleteClient`: keeps the clients whose id differs. */
    method DeleteClient(id: Id)
      requires Valid()
      modifies this
      ensures Valid()
      ensures old(IdsUnique()) ==> IdsUnique()
      ensures clients == RemoveWhere(old(clients), ClientKey, id)
      ensures issued == old(issued) && services == old(services) && appointments == old(appointments)
      ensures transactions == old(transactions) && employees == old(employees)
    {
      if IdsUnique() {
        RemoveKeepsIdsUnique(clients, ClientKey, id);
      }
      clients := RemoveWhere(clients, ClientKey, id);
      assert forall i :: 0 <= i < |clients| ==> clients[i] in old(clients);
    }

    method AddService(s: ServiceInput)
      requires Valid()
      modifies this
      ensures Valid()
      ensures old(IdsUnique()) ==> IdsUnique()
      ensures services == old(services) + [NewServiceRecord(s, FreshId(old(issued)))]
      ensures FreshId(old(issued)) !in old(issued)
      ensures issued == old(issued) + [FreshId(old(issued))]
      ensures clients == old(clients) && appointments == old(appointments)
      ensures transactions == old(transactions) && employees == old(employees)
    {
      var id := NewId();
      var x := NewServiceRecord(s, id);
      if IdsUnique() {
        AddKeepsIdsUnique(services, ServiceKey, x, old(issued));
      }
      services := services + [x];
    }

    method UpdateService(id: Id, p: ServicePatch)
      requires Valid()
      modifies this
      ensures Valid()
      ensures old(IdsUnique()) ==> IdsUnique()
      ensures services == UpdateServices(old(services), id, p)
      ensures issued == old(issued) && clients == old(clients) && appointments == old(appointments)
      ensures transactions == old(transactions) && employees == old(employees)
    {
      UpdateKeepsKeys(services, ServiceKey, id, s => PatchService(s, p));
      services := UpdateServices(services, id, p);
    }

    method DeleteService(id: Id)
      requires Valid()
      modifies this
      ensures Valid()
      ensures old(IdsUnique()) ==> IdsUnique()
      ensures services == RemoveWhere(old(services), ServiceKey, id)
      ensures issued == old(issued) && clients == old(clients) && appointments == old(appointments)
      ensures transactions == old(transactions) && employees == old(employees)
    {
      if IdsUnique() {
        RemoveKeepsIdsUnique(services, ServiceKey, id);
      }
      services := RemoveWhere(services, ServiceKey, id);
      assert forall i :: 0 <= i < |services| ==> services[i] in old(services);
    }

    /** `addAppointment`: appends the appointment with a fresh id, then
        stamps the booked client's last visit with its date. */
    method AddAppointment(a: AppointmentInput)
      requires Valid()
      modifies this
      ensures Valid()
      ensures old(IdsUnique()) ==> IdsUnique()
      ensures appointments == old(appointments) + [NewAppointmentRecord(a, FreshId(old(issued)))]
      ensures clients == UpdateClients(old(clients), a.clientId, VisitPatch(a.date))
      ensures FreshId(old(issued)) !in old(issued)
      ensures issued == old(issued) + [FreshId(old(issued))]
      ensures services == old(services) && transactions == old(transactions) && employees == old(employees)
    {
      var id := NewId();
      var x := NewAppointmentRecord(a, id);
      if IdsUnique() {
        AddKeepsIdsUnique(appointments, AppointmentKey, x, old(issued));
      }
      appointments := appointments + [x];
      UpdateClient(a.clientId, VisitPatch(a.date));
    }

    method UpdateAppointment(id: Id, p: AppointmentPatch)
      requires Valid()
      modifies this
      ensures Valid()
      ensures old(IdsUnique()) ==> IdsUnique()
      ensures appointments == UpdateAppointments(old(appointments), id, p)
      ensures issued == old(issued) && clients == old(clients) && services == old(services)
      ensures transactions == old(transactions) && employees == old(employees)
    {
      UpdateKeepsKeys(appointments, AppointmentKey, id, a => PatchAppointment(a, p));
      appointments := UpdateAppointments(appointments, id, p);
    }

    method DeleteAppointment(id: Id)
      requires Valid()
      modifies this
      ensures Valid()
      ensures old(IdsUnique()) ==> IdsUnique()
      ensures appointments == RemoveWhere(old(appointments), AppointmentKey, id)
      ensures issued == old(issued) && clients == old(clients) && services == old(services)
      ensures transactions == old(transactions) && employees == old(employees)
    {
      if IdsUnique() {
        RemoveKeepsIdsUnique(appointments, AppointmentKey, id);
      }
      appointments := RemoveWhere(appointments, AppointmentKey, id);
      assert forall i :: 0 <= i < |appointments| ==> appointments[i] in old(appointments);
    }

    method AddTransaction(t: TransactionInput)
      requires Valid()
      modifies this
      ensures Valid()
      ensures old(IdsUnique()) ==> IdsUnique()
      ensures transactions == old(transactions) + [NewTransactionRecord(t, FreshId(old(issued)))]
      ensures FreshId(old(issued)) !in old(issued)
      ensures issued == old(issued) + [FreshId(old(issued))]
      ensures clients == old(clients) && services == old(services)
      ensures appointments == old(appointments) && employees == old(employees)
    {
      var id := NewId();
      var x := NewTransactionRecord(t, id);
      if IdsUnique() {
        AddKeepsIdsUnique(transactions, TransactionKey, x, old(issued));
      }
      transactions := transactions + [x];
    }

    method AddEmployee(e: EmployeeInput)
      requires Valid()
      modifies this
      ensures Valid()
      ensures old(IdsUnique()) ==> IdsUnique()
      ensures employees == old(employees) + [NewEmployeeRecord(e, FreshId(old(issued)))]
      ensures FreshId(old(issued)) !in old(issued)
      ensures issued == old(issued) + [FreshId(old(issued))]
      ensures clients == old(clients) && services == old(services)
      ensures appointments == old(appointments) && transactions == old(transactions)
    {
      var id := NewId();
      var x := NewEmployeeRecord(e, id);
      if IdsUnique() {
        AddKeepsIdsUnique(employees, EmployeeKey, x, old(issued));
      }
      employees := employees + [x];
    }

    method UpdateEmployee(id: Id, p: EmployeePatch)
      requires Valid()
      modifies this
      ensures Valid()
      ensures old(IdsUnique()) ==> IdsUnique()
      ensures employees == UpdateEmployees(old(employees), id, p)
      ensures issued == old(issued) && clients == old(clients) && services == old(services)
      ensures appointments == old(appointments) && transactions == old(transactions)
    {
      UpdateKeepsKeys(employees, EmployeeKey, id, e => PatchEmployee(e, p));
      employees := UpdateEmployees(employees, id, p);
    }

    method DeleteEmployee(id: Id)
      requires Valid()
      modifies this
      ensures Valid()
      ensures old(IdsUnique()) ==> IdsUnique()
      ensures employees == RemoveWhere(old(employees), EmployeeKey, id)
      ensures issued == old(issued) && clients == old(clients) && services == old(services)
      ensures appointments == old(appointments) && transactions == old(transactions)
    {
      if IdsUnique() {
        RemoveKeepsIdsUnique(employees, EmployeeKey, id);
      }
      employees := RemoveWhere(employees, EmployeeKey, id);
      assert forall i :: 0 <= i < |employees| ==> employees[i] in old(employees);
    }

    /** `getDashboardStats()` at the moment `now`, with the week window as
        the code computes it: the day and month figures are the intended
        ones, and the week figures agree with them whenever no completed
        appointment falls on the week's Sunday. */
    method GetDashboardStats(now: Moment) returns (r: DashboardStats)
      requires ValidMoment(now)
      ensures r == StatsAsWritten(clients, appointments, now)
      ensures r.totalClients == |clients|
      ensures r.appointmentsToday == Stats(clients, appointments, now).appointmentsToday
      ensures r.revenueToday == Stats(clients, appointments, now).revenueToday
      ensures r.appointmentsThisMonth == Stats(clients, appointments, now).appointmentsThisMonth
      ensures r.revenueThisMonth == Stats(clients, appointments, now).revenueThisMonth
    {
      r := StatsAsWritten(clients, appointments, now);
    }
  }

  /** Appending a record whose id is unused keeps a collection's ids distinct. */
  lemma AddKeepsIdsUnique<T>(s: seq<T>, key: T -> Id, x: T, used: seq<Id>)
    requires NoDuplicates(Map(s, key))
    requires forall i :: 0 <= i < |s| ==> key(s[i]) in used
    requires key(x) !in used
    ensures NoDuplicates(Map(s + [x], key))
  {
    var m := Map(s + [x], key);
    assert forall i :: 0 <= i < |s| ==> m[i] == Map(s, key)[i];
  }

  /** Deleting by id keeps a collection's ids distinct. */
  lemma RemoveKeepsIdsUnique<T>(s: seq<T>, key: T -> Id, id: Id)
    requires NoDuplicates(Map(s, key))
    ensures NoDuplicates(Map(RemoveWhere(s, key, id), key))
  {
    SubseqKeysDistinct(RemoveWhere(s, key, id), s, key);
  }
}
