/** The records the back office keeps: clients, services, appointments,
    employees, payment transactions and the dashboard figures. */
module Types {
  import opened Seqs

  type Id = string

  /** A client; `lastVisit` is absent (`null`) until a first booking. */
  datatype Client = Client(
    id: Id,
    name: string,
    phone: string,
    email: string,
    preferredServices: seq<Id>,
    notes: string,
    createdAt: string,
    lastVisit: Option<string>)

  /** A catalogue service; `duration` is in minutes, `price` in whole currency units. */
  datatype Service = Service(
    id: Id,
    name: string,
    description: string,
    duration: int,
    price: int,
    category: string)

  /** The three states an appointment can be in. */
  datatype Status = Scheduled | Completed | Cancelled

  /** A booking; `date` is `YYYY-MM-DD`, the times are `HH:mm`. */
  datatype Appointment = Appointment(
    id: Id,
    clientId: Id,
    date: string,
    startTime: string,
    endTime: string,
    serviceIds: seq<Id>,
    status: Status,
    totalAmount: int,
    notes: string)

  datatype Employee = Employee(
    id: Id,
    name: string,
    position: string,
    appointmentIds: seq<Id>)

  datatype PaymentMethod = Cash | Card | Transfer

  datatype PaymentStatus = Paid | Pending | Refunded

  datatype Transaction = Transaction(
    id: Id,
    appointmentId: Id,
    date: string,
    amount: int,
    paymentMethod: PaymentMethod,
    status: PaymentStatus)

  /** The seven figures of the dashboard. */
  datatype DashboardStats = DashboardStats(
    totalClients: int,
    appointmentsToday: int,
    revenueToday: int,
    appointmentsThisWeek: int,
    revenueThisWeek: int,
    appointmentsThisMonth: int,
    revenueThisMonth: int)

  // ---------------------------------------------------------------- wire names

  /** The string a status is stored as. */
  function StatusName(s: Status): string
  {
    match s
    case Scheduled => "scheduled"
    case Completed => "completed"
    case Cancelled => "cancelled"
  }

  /** Reads a stored status; any string outside the three names is not a status. */
  function ParseStatus(s: string): (r: Option<Status>)
    ensures r.Some? <==> s in {"scheduled", "completed", "cancelled"}
  {
    if s == "scheduled" then Some(Scheduled)
    else if s == "completed" then Some(Completed)
    else if s == "cancelled" then Some(Cancelled)
    else None
  }

  lemma StatusNameRoundTrip(s: Status)
    ensures ParseStatus(StatusName(s)) == Some(s)
  {
  }

  lemma ParseStatusRoundTrip(s: string)
    requires ParseStatus(s).Some?
    ensures StatusName(ParseStatus(s).value) == s
  {
  }

  function PaymentMethodName(m: PaymentMethod): string
  {
    match m
    case Cash => "cash"
    case Card => "card"
    case Transfer => "transfer"
  }

  function ParsePaymentMethod(s: string): (r: Option<PaymentMethod>)
    ensures r.Some? <==> s in {"cash", "card", "transfer"}
    ensures r.Some? ==> PaymentMethodName(r.value) == s
  {
    if s == "cash" then Some(Cash)
    else if s == "card" then Some(Card)
    else if s == "transfer" then Some(Transfer)
    else None
  }

  lemma PaymentMethodRoundTrip(m: PaymentMethod)
    ensures ParsePaymentMethod(PaymentMethodName(m)) == Some(m)
  {
  }

  function PaymentStatusName(s: PaymentStatus): string
  {
    match s
    case Paid => "paid"
    case Pending => "pending"
    case Refunded => "refunded"
  }

  function ParsePaymentStatus(s: string): (r: Option<PaymentStatus>)
    ensures r.Some? <==> s in {"paid", "pending", "refunded"}
    ensures r.Some? ==> PaymentStatusName(r.value) == s
  {
    if s == "paid" then Some(Paid)
    else if s == "pending" then Some(Pending)
    else if s == "refunded" then Some(Refunded)
    else None
  }

  lemma PaymentStatusRoundTrip(s: PaymentStatus)
    ensures ParsePaymentStatus(PaymentStatusName(s)) == Some(s)
  {
  }

  // ---------------------------------------------------------------- inputs of the add operations

  /** A client as the form submits it: everything but `id` and `createdAt`. */
  datatype ClientInput = ClientInput(
    name: string,
    phone: string,
    email: string,
    preferredServices: seq<Id>,
    notes: string,
    lastVisit: Option<string>)

  /** A service without its `id`. */
  datatype ServiceInput = ServiceInput(
    name: string,
    description: string,
    duration: int,
    price: int,
    category: string)

  /** An appointment without its `id`. */
  datatype AppointmentInput = AppointmentInput(
    clientId: Id,
    date: string,
    startTime: string,
    endTime: string,
    serviceIds: seq<Id>,
    status: Status,
    totalAmount: int,
    notes: string)

  datatype TransactionInput = TransactionInput(
    appointmentId: Id,
    date: string,
    amount: int,
    paymentMethod: PaymentMethod,
    status: PaymentStatus)

  datatype EmployeeInput = EmployeeInput(
    name: string,
    position: string,
    appointmentIds: seq<Id>)

  // ---------------------------------------------------------------- partial updates

  /** `o`'s value when present, else `d`: one field of a shallow merge. */
  function Merge<T>(o: Option<T>, d: T): (r: T)
    ensures o.Some? ==> r == o.value
    ensures o.None? ==> r == d
  {
    if o.Some? then o.value else d
  }

  /** A `Partial<Client>`: the fields present are the ones to overwrite. */
  datatype ClientPatch = ClientPatch(
    name: Option<string>,
    phone: Option<string>,
    email: Option<string>,
    preferredServices: Option<seq<Id>>,
    notes: Option<string>,
    lastVisit: Option<Option<string>>)

  datatype ServicePatch = ServicePatch(
    name: Option<string>,
    description: Option<string>,
    duration: Option<int>,
    price: Option<int>,
    category: Option<string>)

  datatype AppointmentPatch = AppointmentPatch(
    clientId: Option<Id>,
    date: Option<string>,
    startTime: Option<string>,
    endTime: Option<string>,
    serviceIds: Option<seq<Id>>,
    status: Option<Status>,
    totalAmount: Option<int>,
    notes: Option<string>)

  datatype EmployeePatch = EmployeePatch(
    name: Option<string>,
    position: Option<string>,
    appointmentIds: Option<seq<Id>>)

  const NoClientChange := ClientPatch(None, None, None, None, None, None)
  const NoServiceChange := ServicePatch(None, None, None, None, None)
  const NoAppointmentChange := AppointmentPatch(None, None, None, None, None, None, None, None)
  const NoEmployeeChange := EmployeePatch(None, None, None)

  /** `{ ...c, ...p }` */
  function PatchClient(c: Client, p: ClientPatch): (r: Client)
    ensures r.id == c.id && r.createdAt == c.createdAt
  {
    c.(name := Merge(p.name, c.name),
       phone := Merge(p.phone, c.phone),
       email := Merge(p.email, c.email),
       preferredServices := Merge(p.preferredServices, c.preferredServices),
       notes := Merge(p.notes, c.notes),
       lastVisit := Merge(p.lastVisit, c.lastVisit))
  }

  function PatchService(s: Service, p: ServicePatch): (r: Service)
    ensures r.id == s.id
  {
    s.(name := Merge(p.name, s.name),
       description := Merge(p.description, s.description),
       duration := Merge(p.duration, s.duration),
       price := Merge(p.price, s.price),
       category := Merge(p.category, s.category))
  }

  function PatchAppointment(a: Appointment, p: AppointmentPatch): (r: Appointment)
    ensures r.id == a.id
  {
    a.(clientId := Merge(p.clientId, a.clientId),
       date := Merge(p.date, a.date),
       startTime := Merge(p.startTime, a.startTime),
       endTime := Merge(p.endTime, a.endTime),
       serviceIds := Merge(p.serviceIds, a.serviceIds),
       status := Merge(p.status, a.status),
       totalAmount := Merge(p.totalAmount, a.totalAmount),
       notes := Merge(p.notes, a.notes))
  }

  function PatchEmployee(e: Employee, p: EmployeePatch): (r: Employee)
    ensures r.id == e.id
  {
    e.(name := Merge(p.name, e.name),
       position := Merge(p.position, e.position),
       appointmentIds := Merge(p.appointmentIds, e.appointmentIds))
  }

  /** An empty patch changes nothing, and applying a patch twice is applying it once. */
  lemma PatchLaws(c: Client, s: Service, a: Appointment, e: Employee,
                  pc: ClientPatch, ps: ServicePatch, pa: AppointmentPatch, pe: EmployeePatch)
    ensures PatchClient(c, NoClientChange) == c
    ensures PatchService(s, NoServiceChange) == s
    ensures PatchAppointment(a, NoAppointmentChange) == a
    ensures PatchEmployee(e, NoEmployeeChange) == e
    ensures PatchClient(PatchClient(c, pc), pc) == PatchClient(c, pc)
    ensures PatchService(PatchService(s, ps), ps) == PatchService(s, ps)
    ensures PatchAppointment(PatchAppointment(a, pa), pa) == PatchAppointment(a, pa)
    ensures PatchEmployee(PatchEmployee(e, pe), pe) == PatchEmployee(e, pe)
  {
  }

  /** A patch touches exactly the fields it carries. */
  lemma AppointmentPatchFields(a: Appointment, p: AppointmentPatch)
    ensures p.status.None? ==> PatchAppointment(a, p).status == a.status
    ensures p.status.Some? ==> PatchAppointment(a, p).status == p.status.value
    ensures p == NoAppointmentChange.(status := p.status) ==>
              PatchAppointment(a, p) == a.(status := Merge(p.status, a.status))
  {
  }
}
