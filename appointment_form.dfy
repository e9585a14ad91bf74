/** The appointment form: its initial contents, the effect that derives the
    end time and the amount from the chosen services, the validator, the
    submit dispatch and the services grouped by category. */
module AppointmentForm {
  import opened Seqs
  import opened Text
  import opened Calendar
  import opened Types
  import opened DataContext
  import opened ObjectKeys

  // ---------------------------------------------------------------- totals

  function HasServiceId(id: Id): Service -> bool
  {
    (s: Service) => s.id == id
  }

  /** `services.find(s => s.id === id)` */
  function FindService(services: seq<Service>, id: Id): (r: Option<Service>)
    ensures r.Some? ==> r.value in services && r.value.id == id
    ensures r.None? <==> forall i :: 0 <= i < |services| ==> services[i].id != id
  {
    Find(services, HasServiceId(id))
  }

  /** A service's duration, or 0 when the id resolves to no service. */
  function DurationOf(services: seq<Service>, id: Id): int
  {
    match FindService(services, id)
    case Some(s) => s.duration
    case None => 0
  }

  function PriceOf(services: seq<Service>, id: Id): int
  {
    match FindService(services, id)
    case Some(s) => s.price
    case None => 0
  }

  /** The `reduce` over the chosen ids adding each resolved service's duration. */
  function TotalDuration(services: seq<Service>, ids: seq<Id>): int
  {
    if ids == [] then 0 else TotalDuration(services, ids[..|ids| - 1]) + DurationOf(services, ids[|ids| - 1])
  }

  function TotalPrice(services: seq<Service>, ids: seq<Id>): int
  {
    if ids == [] then 0 else TotalPrice(services, ids[..|ids| - 1]) + PriceOf(services, ids[|ids| - 1])
  }

  function Resolves(services: seq<Service>): Id -> bool
  {
    id => FindService(services, id).Some?
  }

  lemma {:induction false} TotalsConcat(services: seq<Service>, a: seq<Id>, b: seq<Id>)
    ensures TotalDuration(services, a + b) == TotalDuration(services, a) + TotalDuration(services, b)
    ensures TotalPrice(services, a + b) == TotalPrice(services, a) + TotalPrice(services, b)
    decreases |b|
  {
    if b == [] {
      assert a + b == a;
    } else {
      var b' := b[..|b| - 1];
      assert (a + b)[..|a + b| - 1] == a + b';
      assert (a + b)[|a + b| - 1] == b[|b| - 1];
      TotalsConcat(services, a, b');
    }
  }

  function Durations(services: seq<Service>): Id -> int
  {
    id => DurationOf(services, id)
  }

  function Prices(services: seq<Service>): Id -> int
  {
    id => PriceOf(services, id)
  }

  /** The left-to-right `reduce` is the sum of the terms. */
  lemma {:induction false} TotalsAreSums(services: seq<Service>, ids: seq<Id>)
    ensures TotalDuration(services, ids) == SumBy(ids, Durations(services))
    ensures TotalPrice(services, ids) == SumBy(ids, Prices(services))
    decreases |ids|
  {
    if ids != [] {
      var init, last := ids[..|ids| - 1], ids[|ids| - 1];
      TotalsAreSums(services, init);
      SplitLast(ids);
      SumByConcat(init, [last], Durations(services));
      SumByConcat(init, [last], Prices(services));
      assert [last][1..] == [];
    }
  }

  /** Ids that resolve to no service add nothing: the totals are the sums over
      the resolved ids alone. */
  lemma UnresolvedAddNothing(services: seq<Service>, ids: seq<Id>)
    ensures TotalDuration(services, ids) == TotalDuration(services, Filter(ids, Resolves(services)))
    ensures TotalPrice(services, ids) == TotalPrice(services, Filter(ids, Resolves(services)))
  {
    var p := Resolves(services);
    TotalsAreSums(services, ids);
    TotalsAreSums(services, Filter(ids, p));
    SumBySkipsZeros(ids, p, Durations(services));
    SumBySkipsZeros(ids, p, Prices(services));
  }

  /** With no negative durations, the total duration is never negative. */
  lemma {:induction false} TotalDurationNonNegative(services: seq<Service>, ids: seq<Id>)
    requires forall i :: 0 <= i < |services| ==> services[i].duration >= 0
    ensures TotalDuration(services, ids) >= 0
    decreases |ids|
  {
    if ids != [] {
      TotalDurationNonNegative(services, ids[..|ids| - 1]);
    }
  }

  // ---------------------------------------------------------------- the recompute effect

  /** The effect on `formData`: with services chosen and a start time set, the
      end time becomes the start plus the total duration on a 24-hour clock and
      the amount the total price; otherwise nothing changes. `None` is the
      error `format` throws for a start time that does not read as `HH:mm`. */
  function Recompute(form: AppointmentInput, services: seq<Service>): (r: Option<AppointmentInput>)
    ensures r.Some? ==> r.value == form.(endTime := r.value.endTime, totalAmount := r.value.totalAmount)
    ensures (form.serviceIds == [] || form.startTime == "") ==> r == Some(form)
    ensures r.None? <==> form.serviceIds != [] && form.startTime != "" && ParseTime(form.startTime).None?
  {
    if |form.serviceIds| > 0 && form.startTime != "" then
      match ParseTime(form.startTime)
      case None => None
      case Some(start) =>
        var finish := AddMinutesWrapped(start, TotalDuration(services, form.serviceIds));
        Some(form.(endTime := FormatTime(finish), totalAmount := TotalPrice(services, form.serviceIds)))
    else Some(form)
  }

  /** After the effect the end time reads back as the start plus the total
      duration, modulo a day, and the amount is the total price. */
  lemma RecomputeEndTime(form: AppointmentInput, services: seq<Service>)
    requires form.serviceIds != [] && ParseTime(form.startTime).Some?
    ensures Recompute(form, services).Some?
    ensures ParseTime(Recompute(form, services).value.endTime) ==
            Some((ParseTime(form.startTime).value + TotalDuration(services, form.serviceIds)) % MinutesPerDay)
    ensures Recompute(form, services).value.totalAmount == TotalPrice(services, form.serviceIds)
  {
    var start := ParseTime(form.startTime).value;
    var finish := AddMinutesWrapped(start, TotalDuration(services, form.serviceIds));
    var r := Recompute(form, services).value;
    assert r.endTime == FormatTime(finish);
    assert ParseTime(r.endTime) == Some(finish) by {
      ParseFormatTime(finish);
    }
  }

  /** Running the effect again changes nothing more. */
  lemma RecomputeIdempotent(form: AppointmentInput, services: seq<Service>)
    requires Recompute(form, services).Some?
    ensures Recompute(Recompute(form, services).value, services) == Recompute(form, services)
  {
  }

  // ---------------------------------------------------------------- initial contents

  /** `s || d` for a string. */
  function OrElse(s: string, d: string): (r: string)
    ensures r != "" || d == ""
  {
    if s != "" then s else d
  }

  /** The form's starting contents when editing `appointment`, or for a new
      booking when it is `None`. */
  function InitialForm(appointment: Option<Appointment>, clients: seq<Client>, today: Date): (r: AppointmentInput)
    requires ValidDate(today)
    ensures appointment.None? ==>
      r == AppointmentInput(if |clients| > 0 then clients[0].id else "", FormatDate(today),
                            "10:00", "11:00", [], Scheduled, 0, "")
    ensures appointment.Some? ==>
      r.serviceIds == appointment.value.serviceIds && r.status == appointment.value.status &&
      r.totalAmount == appointment.value.totalAmount && r.notes == appointment.value.notes
    ensures appointment.Some? ==>
      r.clientId == (if appointment.value.clientId != "" then appointment.value.clientId
                     else if |clients| > 0 then clients[0].id else "")
    ensures appointment.Some? ==>
      r.date == (if appointment.value.date != "" then appointment.value.date else FormatDate(today))
    ensures appointment.Some? ==>
      r.startTime == (if appointment.value.startTime != "" then appointment.value.startTime else "10:00")
    ensures appointment.Some? ==>
      r.endTime == (if appointment.value.endTime != "" then appointment.value.endTime else "11:00")
  {
    var firstClient := if |clients| > 0 then clients[0].id else "";
    match appointment
    case None =>
      AppointmentInput(firstClient, FormatDate(today), "10:00", "11:00", [], Scheduled, 0, "")
    case Some(a) =>
      AppointmentInput(OrElse(a.clientId, firstClient), OrElse(a.date, FormatDate(today)),
                       OrElse(a.startTime, "10:00"), OrElse(a.endTime, "11:00"),
                       a.serviceIds, a.status, a.totalAmount, a.notes)
  }

  // ---------------------------------------------------------------- validation

  const ClientRequired := "El cliente es requerido"
  const DateRequired := "La fecha es requerida"
  const StartRequired := "La hora de inicio es requerida"
  const ServiceRequired := "Al menos un servicio es requerido"

  /** The keys of the error record: the four fields `validate` checks. */
  datatype Field = ClientField | DateField | StartField | ServicesField

  /** The errors `validate` records: one per empty required field. */
  function FormErrors(form: AppointmentInput): (r: map<Field, string>)
    ensures ClientField in r <==> form.clientId == ""
    ensures DateField in r <==> form.date == ""
    ensures StartField in r <==> form.startTime == ""
    ensures ServicesField in r <==> form.serviceIds == []
    ensures r == map[] <==> form.clientId != "" && form.date != "" && form.startTime != "" && form.serviceIds != []
  {
    var e0: map<Field, string> := map[];
    var e1 := if form.clientId == "" then e0[ClientField := ClientRequired] else e0;
    var e2 := if form.date == "" then e1[DateField := DateRequired] else e1;
    var e3 := if form.startTime == "" then e2[StartField := StartRequired] else e2;
    var e4 := if form.serviceIds == [] then e3[ServicesField := ServiceRequired] else e3;
    assert ClientField in e4 ==> e4 != map[];
    assert DateField in e4 ==> e4 != map[];
    assert StartField in e4 ==> e4 != map[];
    assert ServicesField in e4 ==> e4 != map[];
    e4
  }

  /** Every message is one of the four texts, filed under its own field. */
  lemma FormErrorMessages(form: AppointmentInput)
    ensures ClientField in FormErrors(form) ==> FormErrors(form)[ClientField] == ClientRequired
    ensures DateField in FormErrors(form) ==> FormErrors(form)[DateField] == DateRequired
    ensures StartField in FormErrors(form) ==> FormErrors(form)[StartField] == StartRequired
    ensures ServicesField in FormErrors(form) ==> FormErrors(form)[ServicesField] == ServiceRequired
  {
  }

  /** The update an edit sends: every field of the form. */
  function FullPatch(f: AppointmentInput): AppointmentPatch
  {
    AppointmentPatch(Some(f.clientId), Some(f.date), Some(f.startTime), Some(f.endTime),
                     Some(f.serviceIds), Some(f.status), Some(f.totalAmount), Some(f.notes))
  }

  /** Saving an edit replaces every field but the id with the form's. */
  lemma FullPatchReplaces(a: Appointment, f: AppointmentInput)
    ensures PatchAppointment(a, FullPatch(f)) == NewAppointmentRecord(f, a.id)
  {
  }

  // ---------------------------------------------------------------- grouped services

  function Category(s: Service): string { s.category }

  function InCategory(c: string): Service -> bool
  {
    (s: Service) => s.category == c
  }

  /** The services of category `c`, in catalogue order. */
  function Members(services: seq<Service>, c: string): seq<Service>
  {
    if services == [] then []
    else
      var init, last := services[..|services| - 1], services[|services| - 1];
      Members(init, c) + (if last.category == c then [last] else [])
  }

  /** A group is the catalogue filtered by the category. */
  lemma {:induction false} MembersAreFilter(services: seq<Service>, c: string)
    ensures Members(services, c) == Filter(services, InCategory(c))
    decreases |services|
  {
    if services != [] {
      var init, last := services[..|services| - 1], services[|services| - 1];
      assert services == init + [last];
      MembersAreFilter(init, c);
      FilterConcat(init, [last], InCategory(c));
    }
  }

  /** `groupedServices`: each category, once and in order of first
      appearance, with its services in catalogue order. */
  method GroupServices(services: seq<Service>) returns (groups: map<string, seq<Service>>, keys: seq<string>)
    ensures keys == Dedupe(Map(services, Category))
    ensures forall c :: c in groups <==> c in keys
    ensures forall c :: c in groups ==> groups[c] == Members(services, c)
  {
    groups, keys := map[], [];
    var i := 0;
    assert services[..0] == [];
    while i < |services|
      invariant 0 <= i <= |services|
      invariant keys == Dedupe(Map(services[..i], Category))
      invariant forall c :: c in groups <==> c in keys
      invariant forall c :: c in groups ==> groups[c] == Members(services[..i], c)
    {
      var s := services[i];
      KeysNext(groups, keys, services, i);
      if s.category !in groups {
        NewCategoryEmpty(services, i);
      }
      MembersNext(groups, services, i);
      var group := if s.category in groups then groups[s.category] else [];
      keys := if s.category in groups then keys else keys + [s.category];
      groups := groups[s.category := group + [s]];
      i := i + 1;
    }
    assert services[..i] == services;
  }

  /** The keys after one more service: its category is added the first
      time it is seen. */
  lemma KeysNext(groups: map<string, seq<Service>>, keys: seq<string>, services: seq<Service>, i: int)
    requires 0 <= i < |services| && keys == Dedupe(Map(services[..i], Category))
    requires forall c :: c in groups <==> c in keys
    ensures (if services[i].category in groups then keys else keys + [services[i].category])
            == Dedupe(Map(services[..i + 1], Category))
    ensures forall c :: (c == services[i].category || c in groups) <==>
                        c in (if services[i].category in groups then keys else keys + [services[i].category])
  {
    KeysStep(services, i);
  }

  /** The groups after one more service: it joins the group of its
      category, which is opened empty the first time. */
  lemma MembersNext(groups: map<string, seq<Service>>, services: seq<Service>, i: int)
    requires 0 <= i < |services|
    requires forall c :: c in groups ==> groups[c] == Members(services[..i], c)
    requires services[i].category !in groups ==> Members(services[..i], services[i].category) == []
    ensures forall c :: (c == services[i].category || c in groups) ==>
              groups[services[i].category := (if services[i].category in groups then groups[services[i].category] else []) + [services[i]]][c]
              == Members(services[..i + 1], c)
  {
    var g := services[i].category;
    forall c | c == g || c in groups
      ensures groups[g := (if g in groups then groups[g] else []) + [services[i]]][c] == Members(services[..i + 1], c)
    {
      MembersStep(services, i, c);
    }
  }

  /** The keys after one more service. */
  lemma KeysStep(services: seq<Service>, i: int)
    requires 0 <= i < |services|
    ensures Dedupe(Map(services[..i + 1], Category)) ==
            (var d := Dedupe(Map(services[..i], Category));
             if services[i].category in d then d else d + [services[i].category])
  {
    assert services[..i + 1][..i] == services[..i];
    var m := Map(services[..i + 1], Category);
    assert m == Map(services[..i], Category) + [services[i].category];
    DedupeSnoc(Map(services[..i], Category), services[i].category);
  }

  /** The group of `c` after one more service. */
  lemma MembersStep(services: seq<Service>, i: int, c: string)
    requires 0 <= i < |services|
    ensures Members(services[..i + 1], c) ==
            Members(services[..i], c) + (if services[i].category == c then [services[i]] else [])
  {
    assert services[..i + 1][..i] == services[..i];
  }

  /** A category not seen so far has no services so far. */
  lemma NewCategoryEmpty(services: seq<Service>, i: int)
    requires 0 <= i < |services|
    requires services[i].category !in Dedupe(Map(services[..i], Category))
    ensures Members(services[..i], services[i].category) == []
  {
    var p, g := services[..i], services[i].category;
    assert forall j :: 0 <= j < i ==> p[j].category == Map(p, Category)[j];
    MembersAreFilter(p, g);
    FilterNone(p, InCategory(g));
  }

  /** Every service sits in the group of its category and in no other. */
  lemma GroupsPartition(services: seq<Service>, c: string, i: int)
    requires 0 <= i < |services|
    ensures services[i] in Members(services, services[i].category)
    ensures c != services[i].category ==> services[i] !in Members(services, c)
  {
    MembersAreFilter(services, c);
    MembersAreFilter(services, services[i].category);
  }

  /** The order the select lists the groups in, `Object.entries` of the
      grouped record: every category once, integer-like names first, and,
      when no category name is integer-like, the order in which the
      catalogue first shows them. */
  function ListedCategories(services: seq<Service>): (r: seq<string>)
    ensures multiset(r) == multiset(Dedupe(Map(services, Category)))
    ensures NoDuplicates(r)
    ensures (forall i :: 0 <= i < |services| ==> !IsArrayIndex(services[i].category)) ==>
              r == Dedupe(Map(services, Category))
  {
    var keys := Dedupe(Map(services, Category));
    EntriesOrderPermutes(keys);
    PermutationNoDuplicates(EntriesOrder(keys), keys);
    if forall i :: 0 <= i < |services| ==> !IsArrayIndex(services[i].category) then
      NamedCategories(services);
      EntriesOrderOfNames(keys);
      EntriesOrder(keys)
    else
      EntriesOrder(keys)
  }

  lemma NamedCategories(services: seq<Service>)
    requires forall i :: 0 <= i < |services| ==> !IsArrayIndex(services[i].category)
    ensures forall i :: 0 <= i < |Dedupe(Map(services, Category))| ==> !IsArrayIndex(Dedupe(Map(services, Category))[i])
  {
    var keys := Dedupe(Map(services, Category));
    forall i | 0 <= i < |keys|
      ensures !IsArrayIndex(keys[i])
    {
      var cats := Map(services, Category);
      assert keys[i] in cats;
      var j :| 0 <= j < |cats| && cats[j] == keys[i];
      assert keys[i] == services[j].category;
    }
  }

  // ---------------------------------------------------------------- the form

  class AppointmentFormState {
    /** The appointment being edited, if any. */
    const appointment: Option<Appointment>
    var formData: AppointmentInput
    var errors: map<Field, string>

    constructor (appointment: Option<Appointment>, clients: seq<Client>, today: Date)
      requires ValidDate(today)
      ensures this.appointment == appointment
      ensures formData == InitialForm(appointment, clients, today)
      ensures errors == map[]
    {
      this.appointment := appointment;
      formData := InitialForm(appointment, clients, today);
      errors := map[];
    }

    /** Runs the recompute effect; `false` when it throws, leaving the form as it was. */
    method RunEffect(services: seq<Service>) returns (ok: bool)
      modifies this
      ensures ok <==> Recompute(old(formData), services).Some?
      ensures ok ==> formData == Recompute(old(formData), services).value
      ensures !ok ==> formData == old(formData)
      ensures errors == old(errors)
    {
      var r := Recompute(formData, services);
      if r.Some? {
        formData := r.value;
        ok := true;
      } else {
        ok := false;
      }
    }

    /** `validate()`: records the errors field by field and reports whether there are none. */
    method Validate() returns (valid: bool)
      modifies this
      ensures errors == FormErrors(formData)
      ensures valid <==> errors == map[]
      ensures formData == old(formData)
    {
      var newErrors: map<Field, string> := map[];
      if formData.clientId == "" {
        newErrors := newErrors[ClientField := ClientRequired];
      }
      if formData.date == "" {
        newErrors := newErrors[DateField := DateRequired];
      }
      if formData.startTime == "" {
        newErrors := newErrors[StartField := StartRequired];
      }
      if formData.serviceIds == [] {
        newErrors := newErrors[ServicesField := ServiceRequired];
      }
      errors := newErrors;
      valid := |errors.Keys| == 0;
      NoKeysEmpty(errors);
    }

    /** `handleSubmit`: nothing reaches the store unless the form validates;
        then an edit updates the appointment with the whole form and a new
        booking adds it. */
    method Submit(store: DataStore) returns (saved: bool)
      requires store.Valid()
      modifies this, store
      ensures store.Valid()
      ensures saved <==> FormErrors(old(formData)) == map[]
      ensures errors == FormErrors(old(formData)) && formData == old(formData)
      ensures !saved ==> store.appointments == old(store.appointments) && store.clients == old(store.clients)
      ensures saved && appointment.Some? ==>
        store.appointments == UpdateAppointments(old(store.appointments), appointment.value.id, FullPatch(formData)) &&
        store.clients == old(store.clients)
      ensures saved && appointment.None? ==>
        store.appointments == old(store.appointments) + [NewAppointmentRecord(formData, FreshId(old(store.issued)))] &&
        store.clients == UpdateClients(old(store.clients), formData.clientId, VisitPatch(formData.date))
      ensures store.services == old(store.services) && store.employees == old(store.employees)
      ensures store.transactions == old(store.transactions)
    {
      saved := Validate();
      if !saved {
        return;
      }
      if appointment.Some? {
        store.UpdateAppointment(appointment.value.id, FullPatch(formData));
      } else {
        store.AddAppointment(formData);
      }
    }
  }
}
