/** The appointment list: the status filter, the newest-first order, the
    status buttons, the delete confirmation and the name lookups for
    clients and services that may no longer exist. */
module AppointmentList {
  import opened Seqs
  import opened Text
  import opened Calendar
  import opened Types
  import opened DataContext
  import opened AppointmentForm

  // ---------------------------------------------------------------- names

  const UnknownClient := "Cliente desconocido"
  const UnknownService := "Servicio desconocido"

  function HasClientId(id: Id): Client -> bool
  {
    (c: Client) => c.id == id
  }

  /** `clients.find(c => c.id === id)` */
  function FindClient(clients: seq<Client>, id: Id): (r: Option<Client>)
    ensures r.Some? ==> r.value in clients && r.value.id == id
    ensures r.None? <==> forall i :: 0 <= i < |clients| ==> clients[i].id != id
  {
    Find(clients, HasClientId(id))
  }

  /** `getClientName`: the first client with that id, or the placeholder. */
  function ClientName(clients: seq<Client>, id: Id): (r: string)
    ensures (forall i :: 0 <= i < |clients| ==> clients[i].id != id) ==> r == UnknownClient
    ensures forall i :: (0 <= i < |clients| && clients[i].id == id && (forall j :: 0 <= j < i ==> clients[j].id != id))
                        ==> r == clients[i].name
  {
    match FindClient(clients, id)
    case Some(c) => c.name
    case None => UnknownClient
  }

  /** One service's name, or the placeholder for an id no service has. */
  function ServiceName(services: seq<Service>, id: Id): (r: string)
    ensures (forall i :: 0 <= i < |services| ==> services[i].id != id) ==> r == UnknownService
    ensures forall i :: (0 <= i < |services| && services[i].id == id && (forall j :: 0 <= j < i ==> services[j].id != id))
                        ==> r == services[i].name
  {
    match FindService(services, id)
    case Some(s) => s.name
    case None => UnknownService
  }

  function ServiceNameList(services: seq<Service>, ids: seq<Id>): (r: seq<string>)
    ensures |r| == |ids|
    ensures forall i :: 0 <= i < |ids| ==> r[i] == ServiceName(services, ids[i])
  {
    seq(|ids|, i requires 0 <= i < |ids| => ServiceName(services, ids[i]))
  }

  /** `getServiceNames`: one name per id, in order, joined by ", ". */
  function ServiceNames(services: seq<Service>, ids: seq<Id>): (r: string)
    ensures ids == [] ==> r == ""
    ensures |ids| == 1 ==> r == ServiceName(services, ids[0])
    ensures |ids| >= 2 ==> r == ServiceName(services, ids[0]) + ", " + ServiceNames(services, ids[1..])
  {
    assert |ids| >= 2 ==> ServiceNameList(services, ids)[1..] == ServiceNameList(services, ids[1..]);
    Join(ServiceNameList(services, ids), ", ")
  }

  // ---------------------------------------------------------------- the status filter

  /** `'all'` or one status. */
  datatype StatusFilter = All | Only(status: Status)

  function Matches(f: StatusFilter): Appointment -> bool
  {
    (a: Appointment) => f.All? || a.status == f.status
  }

  function FilterByStatus(apps: seq<Appointment>, f: StatusFilter): (r: seq<Appointment>)
    ensures f.Only? ==> forall i :: 0 <= i < |r| ==> r[i].status == f.status
    ensures f.Only? ==> forall i :: 0 <= i < |apps| && apps[i].status == f.status ==> apps[i] in r
    ensures Subseq(r, apps)
  {
    FilterIsSubseq(apps, Matches(f));
    Filter(apps, Matches(f))
  }

  /** `'all'` keeps every appointment, in order. */
  lemma FilterAllKeepsEverything(apps: seq<Appointment>)
    ensures FilterByStatus(apps, All) == apps
  {
    FilterAll(apps, Matches(All));
  }

  // ---------------------------------------------------------------- newest first

  /** `new Date(b.date).getTime() - new Date(a.date).getTime()`: `None`
      stands for the `NaN` that an unreadable date gives. Its sign is the
      order of the two days, the later one first. */
  function DateDelta(a: Appointment, b: Appointment): (r: Option<int>)
    ensures r.None? <==> ParseDate(a.date).None? || ParseDate(b.date).None?
    ensures r.Some? ==> (r.value < 0 <==> DayKey(a) > DayKey(b))
    ensures r.Some? ==> (r.value == 0 <==> DayKey(a) == DayKey(b))
  {
    match (ParseDate(a.date), ParseDate(b.date))
    case (Some(da), Some(db)) => Some(Midnight(db) - Midnight(da))
    case _ => None
  }

  /** The comparator, as `cmp(a, b) <= 0`. A `NaN` difference is not 0, so
      the comparator returns it at once, and the sort reads it as 0: the
      pair counts as equal and the start times are not compared. */
  function ListOrder(): (r: (Appointment, Appointment) -> bool)
    ensures forall a, b :: DateDelta(a, b).None? ==> r(a, b) && r(b, a)
    ensures forall a, b :: DateDelta(a, b).Some? ==> (r(a, b) <==> NewestFirst()(a, b))
  {
    (a, b) =>
      match DateDelta(a, b)
      case None => true
      case Some(d) => d < 0 || (d == 0 && LexLe(a.startTime, b.startTime))
  }

  /** The day of an appointment's date, 0 when it is unreadable. */
  function DayKey(a: Appointment): int
  {
    match ParseDate(a.date)
    case Some(d) => DayNumber(d)
    case None => 0
  }

  /** Newest day first, then the earlier start time first. */
  function NewestFirst(): (Appointment, Appointment) -> bool
  {
    (a, b) => DayKey(a) > DayKey(b) || (DayKey(a) == DayKey(b) && LexLe(a.startTime, b.startTime))
  }

  lemma NewestFirstIsTotalPreorder()
    ensures TotalPreorder(NewestFirst())
  {
    var le := NewestFirst();
    forall a, b
      ensures le(a, b) || le(b, a)
    {
      LexLeTotal(a.startTime, b.startTime);
    }
    forall a, b, c | le(a, b) && le(b, c)
      ensures le(a, c)
    {
      if DayKey(a) == DayKey(b) == DayKey(c) {
        LexLeTransitive(a.startTime, b.startTime, c.startTime);
      }
    }
  }

  /** `filteredAppointments`: the filter, then the sort. */
  function Listed(apps: seq<Appointment>, f: StatusFilter): (r: seq<Appointment>)
    ensures multiset(r) == multiset(FilterByStatus(apps, f))
  {
    SortBy(FilterByStatus(apps, f), ListOrder())
  }

  /** Two appointments, one with an unreadable date, stay in their order
      whatever their start times. */
  lemma UnreadableDateKeepsOrder(a: Appointment, b: Appointment)
    requires ParseDate(a.date).None? || ParseDate(b.date).None?
    ensures Listed([a, b], All) == [a, b]
  {
    var le := ListOrder();
    assert le(a, b);
    FilterAllKeepsEverything([a, b]);
    assert [a, b][1..] == [b];
    assert SortBy([b], le) == [b];
    assert SortBy([a, b], le) == Insert(a, [b], le);
  }

  /** With readable dates the list is a reordering of the filtered
      appointments, newest day first and, within a day, by start time. */
  lemma ListedOrder(apps: seq<Appointment>, f: StatusFilter)
    requires forall i :: 0 <= i < |apps| ==> ParseDate(apps[i].date).Some?
    ensures multiset(Listed(apps, f)) == multiset(FilterByStatus(apps, f))
    ensures forall i, j :: 0 <= i < j < |Listed(apps, f)| ==>
              DayKey(Listed(apps, f)[i]) >= DayKey(Listed(apps, f)[j])
    ensures forall i, j :: (0 <= i < j < |Listed(apps, f)| && DayKey(Listed(apps, f)[i]) == DayKey(Listed(apps, f)[j]))
                           ==> LexLe(Listed(apps, f)[i].startTime, Listed(apps, f)[j].startTime)
  {
    var s := FilterByStatus(apps, f);
    ListedByDay(apps, f);
    NewestFirstIsTotalPreorder();
    SortBySorted(s, NewestFirst());
  }

  /** On readable dates the comparator orders as `NewestFirst` does. */
  lemma ListedByDay(apps: seq<Appointment>, f: StatusFilter)
    requires forall i :: 0 <= i < |apps| ==> ParseDate(apps[i].date).Some?
    ensures Listed(apps, f) == SortBy(FilterByStatus(apps, f), NewestFirst())
  {
    var s := FilterByStatus(apps, f);
    forall a, b | a in s && b in s
      ensures ListOrder()(a, b) == NewestFirst()(a, b)
    {
      assert a in apps && b in apps;
    }
    SortByCongruent(s, ListOrder(), NewestFirst());
  }

  // ---------------------------------------------------------------- row actions

  /** The buttons on an appointment's row. */
  datatype Action = Complete | Cancel | Edit | Delete

  function RowActions(a: Appointment): (r: seq<Action>)
    ensures Complete in r <==> a.status == Scheduled
    ensures Cancel in r <==> a.status == Scheduled
    ensures Edit in r && Delete in r
  {
    (if a.status == Scheduled then [Complete, Cancel] else []) + [Edit, Delete]
  }

  /** The badge text of a status. */
  function StatusLabel(s: Status): string
  {
    match s
    case Completed => "Completada"
    case Scheduled => "Programada"
    case Cancelled => "Cancelada"
  }

  /** The three labels tell the statuses apart. */
  lemma StatusLabelsDistinct(s: Status, t: Status)
    ensures StatusLabel(s) == StatusLabel(t) <==> s == t
  {
    if s != t {
      var a, b := StatusLabel(s), StatusLabel(t);
      assert a[0] != b[0] || a[1] != b[1];
    }
  }

  /** The payload of `handleStatusChange`: only the status. */
  function StatusPatch(s: Status): AppointmentPatch
  {
    NoAppointmentChange.(status := Some(s))
  }

  /** A status change rewrites the status of the appointments with that id
      and nothing else. */
  lemma StatusChangeOnlyStatus(apps: seq<Appointment>, id: Id, s: Status)
    ensures |UpdateAppointments(apps, id, StatusPatch(s))| == |apps|
    ensures forall i :: 0 <= i < |apps| ==>
              UpdateAppointments(apps, id, StatusPatch(s))[i] ==
              (if apps[i].id == id then apps[i].(status := s) else apps[i])
  {
  }

  class AppointmentListView {
    var filter: StatusFilter
    /** The appointment whose deletion awaits confirmation. */
    var selected: Option<Appointment>

    constructor ()
      ensures filter == All && selected == None
    {
      filter := All;
      selected := None;
    }

    /** `handleStatusChange`: forwards `{ status }` to the store. */
    method ChangeStatus(store: DataStore, a: Appointment, s: Status)
      requires store.Valid()
      modifies store
      ensures store.Valid()
      ensures store.appointments == UpdateAppointments(old(store.appointments), a.id, StatusPatch(s))
      ensures store.clients == old(store.clients) && store.services == old(store.services)
      ensures store.employees == old(store.employees) && store.transactions == old(store.transactions)
    {
      store.UpdateAppointment(a.id, StatusPatch(s));
    }

    /** `confirmDelete`: deletes the selected appointment and clears the selection. */
    method ConfirmDelete(store: DataStore)
      requires store.Valid()
      modifies this, store
      ensures store.Valid()
      ensures old(selected).Some? ==>
        store.appointments == RemoveWhere(old(store.appointments), AppointmentKey, old(selected).value.id)
      ensures old(selected).None? ==> store.appointments == old(store.appointments)
      ensures selected == None && filter == old(filter)
      ensures store.clients == old(store.clients) && store.services == old(store.services)
      ensures store.employees == old(store.employees) && store.transactions == old(store.transactions)
    {
      if selected.Some? {
        store.DeleteAppointment(selected.value.id);
        selected := None;
      }
    }
  }
}
