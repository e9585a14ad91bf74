/** The finances page: the completed appointments of the day, week or month
    around a pivot date, their revenue, the popularity of each service, the
    navigation between periods and the text of the CSV report. */
module FinancesPage {
  import opened Seqs
  import opened Text
  import opened Calendar
  import opened Types
  import opened DataContext
  import opened ObjectKeys
  import opened AppointmentForm
  import opened AppointmentList
  import opened Csv

  datatype Period = Daily | Weekly | Monthly

  // ---------------------------------------------------------------- the period's appointments

  function IsCompleted(): Appointment -> bool
  {
    (a: Appointment) => a.status == Completed
  }

  /** `completedAppointments`: the only appointments any period looks at. */
  function CompletedAppointments(apps: seq<Appointment>): (r: seq<Appointment>)
    ensures forall i :: 0 <= i < |r| ==> r[i] in apps && r[i].status == Completed
    ensures forall i :: 0 <= i < |apps| && apps[i].status == Completed ==> apps[i] in r
  {
    Filter(apps, IsCompleted())
  }

  /** The date test of a period around `pivot`: the same `yyyy-MM-dd`, the
      Sunday-to-Saturday week, or the same `yyyy-MM` prefix. */
  function InPeriod(period: Period, pivot: Moment): Appointment -> bool
    requires ValidMoment(pivot)
  {
    match period
    case Daily => (a: Appointment) => a.date == FormatDate(pivot.date)
    case Weekly => (a: Appointment) => InWeek(a.date, pivot)
    case Monthly => (a: Appointment) => StartsWith(a.date, FormatMonth(pivot.date))
  }

  /** The same tests with the week as the code writes it. */
  function InPeriodAsWritten(period: Period, pivot: Moment): Appointment -> bool
    requires ValidMoment(pivot)
  {
    match period
    case Weekly => (a: Appointment) => InWeekAsWritten(a.date, pivot)
    case _ => InPeriod(period, pivot)
  }

  /** `getCurrentPeriodAppointments`, with the week taken as Sunday to Saturday. */
  function PeriodAppointments(apps: seq<Appointment>, period: Period, pivot: Moment): (r: seq<Appointment>)
    requires ValidMoment(pivot)
    ensures forall i :: 0 <= i < |r| ==> r[i] in apps && r[i].status == Completed && InPeriod(period, pivot)(r[i])
    ensures forall i :: (0 <= i < |apps| && apps[i].status == Completed && InPeriod(period, pivot)(apps[i]))
                        ==> apps[i] in r
  {
    Filter(CompletedAppointments(apps), InPeriod(period, pivot))
  }

  /** `getCurrentPeriodAppointments` with the week test as written. */
  function PeriodAppointmentsAsWritten(apps: seq<Appointment>, period: Period, pivot: Moment): (r: seq<Appointment>)
    requires ValidMoment(pivot)
    ensures forall i :: 0 <= i < |r| ==> r[i] in apps && r[i].status == Completed && InPeriodAsWritten(period, pivot)(r[i])
    ensures forall i :: (0 <= i < |apps| && apps[i].status == Completed && InPeriodAsWritten(period, pivot)(apps[i]))
                        ==> apps[i] in r
  {
    Filter(CompletedAppointments(apps), InPeriodAsWritten(period, pivot))
  }

  /** The period as written keeps no appointment the intended period drops:
      it can only lose the week's Sunday. */
  lemma PeriodAsWrittenWithin(apps: seq<Appointment>, period: Period, pivot: Moment)
    requires ValidMoment(pivot)
    ensures forall a :: a in PeriodAppointmentsAsWritten(apps, period, pivot) ==> a in PeriodAppointments(apps, period, pivot)
  {
    var w := PeriodAppointmentsAsWritten(apps, period, pivot);
    var r := PeriodAppointments(apps, period, pivot);
    forall a | a in w
      ensures a in r
    {
      var i :| 0 <= i < |w| && w[i] == a;
      var j :| 0 <= j < |apps| && apps[j] == a;
      if period == Weekly {
        InWeekAsWrittenWithin(a.date, pivot);
      }
      assert InPeriod(period, pivot)(apps[j]);
    }
  }

  function CompletedIn(period: Period, pivot: Moment): Appointment -> bool
    requires ValidMoment(pivot)
  {
    (a: Appointment) => a.status == Completed && InPeriod(period, pivot)(a)
  }

  /** The two filters are one: the period's appointments keep the order of
      the store. */
  lemma PeriodIsOneFilter(apps: seq<Appointment>, period: Period, pivot: Moment)
    requires ValidMoment(pivot)
    ensures PeriodAppointments(apps, period, pivot) == Filter(apps, CompletedIn(period, pivot))
    ensures Subseq(PeriodAppointments(apps, period, pivot), apps)
  {
    var completed, inPeriod, both := IsCompleted(), InPeriod(period, pivot), CompletedIn(period, pivot);
    FilterFilter(apps, completed, inPeriod, both);
    FilterIsSubseq(apps, both);
  }

  /** `totalRevenue`. */
  function TotalRevenue(apps: seq<Appointment>, period: Period, pivot: Moment): int
    requires ValidMoment(pivot)
  {
    Revenue(PeriodAppointments(apps, period, pivot))
  }

  /** The finances page and the dashboard agree: the day, the week and the
      month of `now` hold the dashboard's counts and revenues. */
  lemma DashboardAgrees(clients: seq<Client>, apps: seq<Appointment>, now: Moment)
    requires ValidMoment(now)
    ensures Stats(clients, apps, now).appointmentsToday == |PeriodAppointments(apps, Daily, now)|
    ensures Stats(clients, apps, now).revenueToday == TotalRevenue(apps, Daily, now)
    ensures Stats(clients, apps, now).appointmentsThisWeek == |PeriodAppointments(apps, Weekly, now)|
    ensures Stats(clients, apps, now).revenueThisWeek == TotalRevenue(apps, Weekly, now)
    ensures Stats(clients, apps, now).appointmentsThisMonth == |PeriodAppointments(apps, Monthly, now)|
    ensures Stats(clients, apps, now).revenueThisMonth == TotalRevenue(apps, Monthly, now)
  {
    PeriodIsOneFilter(apps, Daily, now);
    PeriodIsOneFilter(apps, Weekly, now);
    PeriodIsOneFilter(apps, Monthly, now);
    FilterSame(apps, CompletedIn(Daily, now), CompletedOn(FormatDate(now.date)));
    FilterSame(apps, CompletedIn(Weekly, now), CompletedInWeekOf(now));
    FilterSame(apps, CompletedIn(Monthly, now), CompletedInMonthOf(FormatMonth(now.date)));
  }

  /** The pivot's day lies in its week and in its month: the daily view
      counts no more than the weekly and the monthly ones and, with amounts
      that are never negative, earns no more. */
  lemma DayWithinWeekAndMonth(apps: seq<Appointment>, pivot: Moment)
    requires ValidMoment(pivot) && 1 <= pivot.date.year <= 9999
    ensures |PeriodAppointments(apps, Daily, pivot)| <= |PeriodAppointments(apps, Weekly, pivot)|
    ensures |PeriodAppointments(apps, Daily, pivot)| <= |PeriodAppointments(apps, Monthly, pivot)|
    ensures (forall i :: 0 <= i < |apps| ==> apps[i].totalAmount >= 0) ==>
              TotalRevenue(apps, Daily, pivot) <= TotalRevenue(apps, Weekly, pivot) &&
              TotalRevenue(apps, Daily, pivot) <= TotalRevenue(apps, Monthly, pivot)
  {
    var done := CompletedAppointments(apps);
    var day, week, month := InPeriod(Daily, pivot), InPeriod(Weekly, pivot), InPeriod(Monthly, pivot);
    InWeekHoldsToday(pivot);
    assert forall x :: x in done && day(x) ==> week(x);
    assert forall x :: x in done && day(x) ==> month(x);
    FilterMonotone(done, day, week);
    FilterMonotone(done, day, month);
    if forall i :: 0 <= i < |apps| ==> apps[i].totalAmount >= 0 {
      assert forall x :: x in done ==> Amount(x) >= 0;
      SumByFilterMonotone(done, day, week, Amount);
      SumByFilterMonotone(done, day, month, Amount);
    }
  }

  // ---------------------------------------------------------------- service popularity

  /** Every service id of `apps`, in order, repeats included. */
  function ServiceIdsOf(apps: seq<Appointment>): (r: seq<Id>)
  {
    if apps == [] then [] else ServiceIdsOf(apps[..|apps| - 1]) + apps[|apps| - 1].serviceIds
  }

  lemma ServiceIdsStep(apps: seq<Appointment>, i: nat)
    requires i < |apps|
    ensures ServiceIdsOf(apps[..i + 1]) == ServiceIdsOf(apps[..i]) + apps[i].serviceIds
  {
    assert apps[..i + 1][..i] == apps[..i];
  }

  /** The tally of `p`, one id after the other: `(counts[id] || 0) + 1`. */
  function CountsOf(p: seq<Id>): map<Id, int>
  {
    if p == [] then map[]
    else
      Bump(CountsOf(p[..|p| - 1]), p[|p| - 1])
  }

  /** `serviceCounts[id] = (serviceCounts[id] || 0) + 1` */
  function Bump(m: map<Id, int>, id: Id): map<Id, int>
  {
    m[id := (if id in m then m[id] else 0) + 1]
  }

  /** The keys in the order they were first counted, after counting `id`. */
  function Note(m: map<Id, int>, keys: seq<Id>, id: Id): seq<Id>
  {
    if id in m then keys else keys + [id]
  }

  /** The tally counts every id of `p`, and no other, by its number of
      occurrences. */
  lemma {:induction false} CountsOfOccurrences(p: seq<Id>)
    ensures forall k :: k in CountsOf(p) <==> k in p
    ensures forall k :: k in CountsOf(p) ==> CountsOf(p)[k] == multiset(p)[k]
  {
    if p != [] {
      var q, id := p[..|p| - 1], p[|p| - 1];
      CountsOfOccurrences(q);
      assert p == q + [id];
      assert multiset(p) == multiset(q) + multiset{id};
      forall k | k in CountsOf(p)
        ensures CountsOf(p)[k] == multiset(p)[k]
      {
        if k == id && id !in CountsOf(q) {
          assert id !in multiset(q);
        }
      }
    }
  }

  /** Counting one more id. */
  lemma CountsSnoc(p: seq<Id>, x: Id)
    ensures CountsOf(p + [x]) == Bump(CountsOf(p), x)
  {
    assert (p + [x])[..|p|] == p;
  }

  /** The step of the inner loop, at position `j` of one appointment's ids:
      the count of `ids[j]` goes up by one, and the id becomes a key the
      first time it is seen. */
  lemma TallyNext(counts: map<Id, int>, keys: seq<Id>, done: seq<Id>, ids: seq<Id>, j: nat)
    requires j < |ids| && counts == CountsOf(done + ids[..j]) && keys == Dedupe(done + ids[..j])
    ensures Bump(counts, ids[j]) == CountsOf(done + ids[..j + 1])
    ensures Note(counts, keys, ids[j]) == Dedupe(done + ids[..j + 1])
  {
    var p, x := done + ids[..j], ids[j];
    assert done + ids[..j + 1] == p + [x];
    assert (x in counts <==> x in p) by {
      CountsOfOccurrences(p);
    }
    CountsSnoc(p, x);
    DedupeSnoc(p, x);
  }

  /** The inner `forEach`: adds the ids of one appointment to the tally of
      the ids already counted. */
  method CountInto(counts0: map<Id, int>, keys0: seq<Id>, ghost done: seq<Id>, ids: seq<Id>)
    returns (counts: map<Id, int>, keys: seq<Id>)
    requires counts0 == CountsOf(done) && keys0 == Dedupe(done)
    ensures counts == CountsOf(done + ids) && keys == Dedupe(done + ids)
  {
    counts, keys := counts0, keys0;
    var j := 0;
    assert done + ids[..0] == done;
    while j < |ids|
      invariant 0 <= j <= |ids|
      invariant counts == CountsOf(done + ids[..j])
      invariant keys == Dedupe(done + ids[..j])
    {
      TallyNext(counts, keys, done, ids, j);
      counts, keys := Bump(counts, ids[j]), Note(counts, keys, ids[j]);
      j := j + 1;
    }
    assert ids[..|ids|] == ids;
  }

  /** The `serviceCounts` loops: how often each id occurs across the
      appointments' service lists, and the ids in the order they were first
      counted. */
  method Tally(apps: seq<Appointment>) returns (counts: map<Id, int>, keys: seq<Id>)
    ensures counts == CountsOf(ServiceIdsOf(apps))
    ensures keys == Dedupe(ServiceIdsOf(apps))
  {
    counts, keys := map[], [];
    var i := 0;
    assert apps[..0] == [];
    while i < |apps|
      invariant 0 <= i <= |apps|
      invariant counts == CountsOf(ServiceIdsOf(apps[..i]))
      invariant keys == Dedupe(ServiceIdsOf(apps[..i]))
    {
      counts, keys := CountInto(counts, keys, ServiceIdsOf(apps[..i]), apps[i].serviceIds);
      ServiceIdsStep(apps, i);
      i := i + 1;
    }
    assert apps[..|apps|] == apps;
  }

  /** One line of the popularity table. */
  datatype Popularity = Popularity(serviceId: Id, name: string, count: int, revenue: int)

  /** A counted id with the service's current name and price, or the
      placeholder name and no revenue when no service has that id. */
  function PopularityRow(services: seq<Service>, id: Id, count: int): Popularity
  {
    match FindService(services, id)
    case Some(s) => Popularity(id, s.name, count, s.price * count)
    case None => Popularity(id, UnknownService, count, 0)
  }

  /** The comparator `b.count - a.count`, as `cmp(a, b) <= 0`. */
  function ByCount(): (Popularity, Popularity) -> bool
  {
    (a: Popularity, b: Popularity) => b.count - a.count <= 0
  }

  lemma ByCountIsTotalPreorder()
    ensures TotalPreorder(ByCount())
  {
  }

  /** One row per id of `ids`, counted in `flat`. */
  function RowsOf(services: seq<Service>, flat: seq<Id>, ids: seq<Id>): (r: seq<Popularity>)
    ensures |r| == |ids|
    ensures forall i :: 0 <= i < |ids| ==> r[i] == PopularityRow(services, ids[i], multiset(flat)[ids[i]])
  {
    seq(|ids|, i requires 0 <= i < |ids| => PopularityRow(services, ids[i], multiset(flat)[ids[i]]))
  }

  /** `getServicePopularity` as a value: the rows in the order the object's
      entries are listed, then stably sorted by decreasing count. */
  function PopularityOf(apps: seq<Appointment>, services: seq<Service>): seq<Popularity>
  {
    var flat := ServiceIdsOf(apps);
    SortBy(RowsOf(services, flat, EntriesOrder(Dedupe(flat))), ByCount())
  }

  /** `Object.entries(serviceCounts).map(...)`: one row per key of `counts`. */
  function RowsFromCounts(services: seq<Service>, counts: map<Id, int>, ids: seq<Id>): seq<Popularity>
    requires forall k :: k in ids ==> k in counts
  {
    seq(|ids|, i requires 0 <= i < |ids| => PopularityRow(services, ids[i], counts[ids[i]]))
  }

  lemma RowsFromTally(services: seq<Service>, counts: map<Id, int>, flat: seq<Id>, ids: seq<Id>)
    requires forall k :: k in ids ==> k in counts && counts[k] == multiset(flat)[k]
    ensures RowsFromCounts(services, counts, ids) == RowsOf(services, flat, ids)
  {
  }

  /** `getServicePopularity`: the tally, then one row per counted id in the
      order of the object's entries, sorted by count. */
  method ServicePopularity(apps: seq<Appointment>, services: seq<Service>) returns (rows: seq<Popularity>)
    ensures rows == PopularityOf(apps, services)
  {
    var counts, keys := Tally(apps);
    var order := EntriesOrder(keys);
    TableIds(apps, services);
    CountsOfOccurrences(ServiceIdsOf(apps));
    RowsFromTally(services, counts, ServiceIdsOf(apps), order);
    rows := SortBy(RowsFromCounts(services, counts, order), ByCount());
  }

  function RowId(r: Popularity): Id { r.serviceId }

  function RowCount(r: Popularity): int { r.count }

  /** The counts of a table add up to the occurrences of its ids. */
  lemma {:induction false} RowsCount(services: seq<Service>, flat: seq<Id>, ids: seq<Id>)
    ensures SumBy(RowsOf(services, flat, ids), RowCount) == SumBy(ids, MultiplicityIn(flat))
  {
    if ids != [] {
      assert RowsOf(services, flat, ids)[1..] == RowsOf(services, flat, ids[1..]);
      RowsCount(services, flat, ids[1..]);
    }
  }

  /** The ids of the table before sorting: each distinct id of the period,
      once. */
  lemma TableIds(apps: seq<Appointment>, services: seq<Service>)
    ensures multiset(EntriesOrder(Dedupe(ServiceIdsOf(apps)))) == multiset(Dedupe(ServiceIdsOf(apps)))
    ensures NoDuplicates(EntriesOrder(Dedupe(ServiceIdsOf(apps))))
    ensures forall k :: k in EntriesOrder(Dedupe(ServiceIdsOf(apps))) <==> k in ServiceIdsOf(apps)
  {
    var keys := Dedupe(ServiceIdsOf(apps));
    var order := EntriesOrder(keys);
    EntriesOrderPermutes(keys);
    PermutationNoDuplicates(order, keys);
    forall k
      ensures k in order <==> k in keys
    {
      assert k in order <==> k in multiset(order);
    }
  }

  /** The table is ranked: counts never increase down the rows. */
  lemma PopularityRanked(apps: seq<Appointment>, services: seq<Service>)
    ensures forall i, j :: 0 <= i < j < |PopularityOf(apps, services)| ==>
              PopularityOf(apps, services)[i].count >= PopularityOf(apps, services)[j].count
  {
    var flat := ServiceIdsOf(apps);
    ByCountIsTotalPreorder();
    SortBySorted(RowsOf(services, flat, EntriesOrder(Dedupe(flat))), ByCount());
  }

  /** Each row holds a booked id, its number of occurrences in the period
      and the current name and price of the service, or the placeholder
      name and no revenue. */
  lemma PopularityRows(apps: seq<Appointment>, services: seq<Service>)
    ensures forall i :: 0 <= i < |PopularityOf(apps, services)| ==>
              PopularityOf(apps, services)[i] ==
                PopularityRow(services, PopularityOf(apps, services)[i].serviceId,
                              multiset(ServiceIdsOf(apps))[PopularityOf(apps, services)[i].serviceId]) &&
              PopularityOf(apps, services)[i].serviceId in ServiceIdsOf(apps)
  {
    var flat := ServiceIdsOf(apps);
    var order := EntriesOrder(Dedupe(flat));
    var table := RowsOf(services, flat, order);
    var r := PopularityOf(apps, services);
    TableIds(apps, services);
    forall i | 0 <= i < |r|
      ensures r[i] == PopularityRow(services, r[i].serviceId, multiset(flat)[r[i].serviceId])
      ensures r[i].serviceId in flat
    {
      assert r[i] in multiset(table);
      var k :| 0 <= k < |table| && table[k] == r[i];
      assert order[k] in order;
    }
  }

  /** The ids of the rows are the distinct booked ids, reordered. */
  lemma PopularityIds(apps: seq<Appointment>, services: seq<Service>)
    ensures multiset(Map(PopularityOf(apps, services), RowId)) == multiset(EntriesOrder(Dedupe(ServiceIdsOf(apps))))
    ensures NoDuplicates(Map(PopularityOf(apps, services), RowId))
  {
    var flat := ServiceIdsOf(apps);
    var order := EntriesOrder(Dedupe(flat));
    var table := RowsOf(services, flat, order);
    TableIds(apps, services);
    assert Map(table, RowId) == order;
    MapPermutation(PopularityOf(apps, services), table, RowId);
    PermutationNoDuplicates(Map(PopularityOf(apps, services), RowId), order);
  }

  /** Every booked id has a row. */
  lemma PopularityCoversIds(apps: seq<Appointment>, services: seq<Service>)
    ensures forall id :: id in ServiceIdsOf(apps) ==>
              exists i :: 0 <= i < |PopularityOf(apps, services)| && PopularityOf(apps, services)[i].serviceId == id
  {
    var r := PopularityOf(apps, services);
    var order := EntriesOrder(Dedupe(ServiceIdsOf(apps)));
    TableIds(apps, services);
    PopularityIds(apps, services);
    forall id | id in ServiceIdsOf(apps)
      ensures exists i :: 0 <= i < |r| && r[i].serviceId == id
    {
      assert id in multiset(order);
      MapHits(r, RowId, id);
    }
  }

  /** No id has two rows. */
  lemma PopularityDistinct(apps: seq<Appointment>, services: seq<Service>)
    ensures forall i, j :: 0 <= i < j < |PopularityOf(apps, services)| ==>
              PopularityOf(apps, services)[i].serviceId != PopularityOf(apps, services)[j].serviceId
  {
    var r := PopularityOf(apps, services);
    var ids := Map(r, RowId);
    PopularityIds(apps, services);
    forall i, j | 0 <= i < j < |r|
      ensures r[i].serviceId != r[j].serviceId
    {
      assert ids[i] != ids[j];
    }
  }

  /** The counts add up to the number of services booked in the period,
      repeats included. */
  lemma PopularityCountsAddUp(apps: seq<Appointment>, services: seq<Service>)
    ensures SumBy(PopularityOf(apps, services), RowCount) == |ServiceIdsOf(apps)|
  {
    var flat := ServiceIdsOf(apps);
    var keys := Dedupe(flat);
    var order := EntriesOrder(keys);
    var table := RowsOf(services, flat, order);
    TableIds(apps, services);
    SumByPermutation(PopularityOf(apps, services), table, RowCount);
    RowsCount(services, flat, order);
    SumByPermutation(order, keys, MultiplicityIn(flat));
    SumOfMultiplicities(flat);
  }

  // ---------------------------------------------------------------- navigation

  /** The date `k` periods after `d`: days, weeks, or calendar months with the
      day clamped to the target month. */
  function Step(period: Period, d: Date, k: int): (r: Date)
    requires ValidDate(d)
    ensures ValidDate(r)
  {
    match period
    case Daily => AddDaysNumber(d, k); AddDays(d, k)
    case Weekly => AddDaysNumber(d, 7 * k); AddDays(d, 7 * k)
    case Monthly => AddMonthsClamped(d, k)
  }

  /** The step as written: `setMonth` keeps the day of the month and lets a
      day the target month lacks roll over into the month after it. */
  function StepAsWritten(period: Period, d: Date, k: int): (r: Date)
    requires ValidDate(d)
    ensures ValidDate(r)
    ensures period != Monthly ==> r == Step(period, d, k)
    ensures period == Monthly ==>
              var t := ShiftMonth(d.year, d.month, k);
              DayNumber(r) == MonthStart(t.0, t.1) + d.day - 1
  {
    match period
    case Monthly =>
      var t := ShiftMonth(d.year, d.month, k);
      NormalizeDayCorrect(t.0, t.1, d.day);
      AddMonthsOverflow(d, k)
    case _ => Step(period, d, k)
  }

  /** On the first 28 days of a month the step as written and the clamped
      step agree: only the 29th to the 31st can roll over. */
  lemma StepAsWrittenAgreesEarly(period: Period, d: Date, k: int)
    requires ValidDate(d) && d.day <= 28
    ensures StepAsWritten(period, d, k) == Step(period, d, k)
  {
    if period == Monthly {
      var t := ShiftMonth(d.year, d.month, k);
      NormalizeDayCorrect(t.0, t.1, d.day);
      var c := Step(period, d, k);
      assert c == Date(t.0, t.1, d.day);
      DayNumberInjective(StepAsWritten(period, d, k), c);
    }
  }

  /** A step moves by exactly one period. */
  lemma StepMoves(period: Period, d: Date, k: int)
    requires ValidDate(d)
    ensures period == Daily ==> DayNumber(Step(period, d, k)) == DayNumber(d) + k
    ensures period == Weekly ==> DayNumber(Step(period, d, k)) == DayNumber(d) + 7 * k
    ensures period == Monthly ==>
              Step(period, d, k).year * 12 + Step(period, d, k).month == d.year * 12 + d.month + k &&
              Step(period, d, k).day <= d.day
  {
    AddDaysNumber(d, k);
    AddDaysNumber(d, 7 * k);
  }

  /** Back and forth: in the daily and the weekly view, previous then next
      (or next then previous) returns to the same date; in the monthly view
      to the same month. */
  lemma StepBackAndForth(period: Period, d: Date)
    requires ValidDate(d)
    ensures period != Monthly ==> Step(period, Step(period, d, -1), 1) == d
    ensures period != Monthly ==> Step(period, Step(period, d, 1), -1) == d
    ensures (Step(period, Step(period, d, -1), 1).year * 12 + Step(period, Step(period, d, -1), 1).month
             == d.year * 12 + d.month)
  {
    AddDaysInverse(d, -1);
    AddDaysInverse(d, 1);
    AddDaysInverse(d, -7);
    AddDaysInverse(d, 7);
    if period == Daily {
      AddDaysNumber(AddDays(d, -1), 1);
    } else if period == Weekly {
      assert 7 * -1 == -7;
      AddDaysNumber(AddDays(d, -7), 7);
    }
  }

  /** As written, "previous month" from 31 March stays in March (3 March) and
      "next month" from 31 January skips February (3 March). */
  lemma MonthStepAsWrittenMisses()
    ensures StepAsWritten(Monthly, Date(2023, 3, 31), -1) == Date(2023, 3, 3)
    ensures StepAsWritten(Monthly, Date(2023, 1, 31), 1) == Date(2023, 3, 3)
    ensures Step(Monthly, Date(2023, 3, 31), -1) == Date(2023, 2, 28)
    ensures Step(Monthly, Date(2023, 1, 31), 1) == Date(2023, 2, 28)
  {
    assert ShiftMonth(2023, 3, -1) == (2023, 2);
    assert ShiftMonth(2023, 1, 1) == (2023, 2);
    assert NormalizeDay(2023, 3, 3) == Date(2023, 3, 3);
    assert NormalizeDay(2023, 2, 31) == NormalizeDay(2023, 3, 3);
  }

  /** The page's state: the chosen period and the pivot moment. */
  class FinancesView {
    var period: Period
    var currentDate: Moment

    ghost predicate Valid()
      reads this
    {
      ValidMoment(currentDate)
    }

    /** The page opens on the daily view of `now`. */
    constructor (now: Moment)
      requires ValidMoment(now)
      ensures Valid()
      ensures period == Daily && currentDate == now
    {
      period := Daily;
      currentDate := now;
    }

    method SetPeriod(p: Period)
      requires Valid()
      modifies this
      ensures Valid()
      ensures period == p && currentDate == old(currentDate)
    {
      period := p;
    }

    /** `goToPreviousPeriod`: one day, one week, or `setMonth` one month
      back, keeping the time of day. */
    method GoToPrevious()
      requires Valid()
      modifies this
      ensures Valid()
      ensures period == old(period)
      ensures currentDate == Moment(StepAsWritten(period, old(currentDate).date, -1), old(currentDate).ms)
    {
      currentDate := Moment(StepAsWritten(period, currentDate.date, -1), currentDate.ms);
    }

    /** `goToNextPeriod`: one day, one week, or `setMonth` one month
      forward, keeping the time of day. */
    method GoToNext()
      requires Valid()
      modifies this
      ensures Valid()
      ensures period == old(period)
      ensures currentDate == Moment(StepAsWritten(period, old(currentDate).date, 1), old(currentDate).ms)
    {
      currentDate := Moment(StepAsWritten(period, currentDate.date, 1), currentDate.ms);
    }
  }

  // ---------------------------------------------------------------- the CSV report

  const CsvHeader: seq<string> := ["Fecha", "Cliente", "Servicios", "Total"]

  /** The four cells of one appointment's line. */
  function CsvCells(clients: seq<Client>, services: seq<Service>, a: Appointment): (r: seq<string>)
    ensures |r| == 4
  {
    [a.date, ClientName(clients, a.clientId), ServiceNames(services, a.serviceIds), IntToString(a.totalAmount)]
  }

  /** The summary cells pushed after the appointments. */
  function SummaryCells(total: int): seq<string>
  {
    ["", "", "TOTAL", IntToString(total)]
  }

  /** The cells of each appointment's line. */
  function CsvRows(clients: seq<Client>, services: seq<Service>, apps: seq<Appointment>): (r: seq<seq<string>>)
    ensures |r| == |apps|
    ensures forall i :: 0 <= i < |apps| ==> r[i] == CsvCells(clients, services, apps[i])
  {
    seq(|apps|, i requires 0 <= i < |apps| => CsvCells(clients, services, apps[i]))
  }

  /** The cells of every line: the header, one line per appointment, the summary. */
  function CsvTable(clients: seq<Client>, services: seq<Service>, apps: seq<Appointment>): (r: seq<seq<string>>)
    ensures |r| == |apps| + 2
    ensures r[0] == CsvHeader && r[|r| - 1] == SummaryCells(Revenue(apps))
    ensures forall i :: 0 <= i < |apps| ==> r[i + 1] == CsvCells(clients, services, apps[i])
  {
    var rows := CsvRows(clients, services, apps);
    Framed(CsvHeader, rows, SummaryCells(Revenue(apps)));
    [CsvHeader] + rows + [SummaryCells(Revenue(apps))]
  }

  /** The lines as written: the cells joined by `,` with no quoting. */
  function CsvLinesAsWritten(clients: seq<Client>, services: seq<Service>, apps: seq<Appointment>): (r: seq<string>)
    ensures |r| == |apps| + 2
    ensures r[0] == Join(CsvHeader, ",") && r[|apps| + 1] == Join(SummaryCells(Revenue(apps)), ",")
    ensures forall i :: 0 <= i < |apps| ==> r[i + 1] == Join(CsvCells(clients, services, apps[i]), ",")
  {
    Map(CsvTable(clients, services, apps), JoinCells)
  }

  function JoinCells(cells: seq<string>): string
  {
    Join(cells, ",")
  }

  /** The lines with each cell written as a CSV field, quoted when it holds
      a comma, a quote or a line break. */
  function CsvLines(clients: seq<Client>, services: seq<Service>, apps: seq<Appointment>): (r: seq<string>)
    ensures |r| == |apps| + 2
    ensures r[0] == WriteRecord(CsvHeader) && r[|apps| + 1] == WriteRecord(SummaryCells(Revenue(apps)))
    ensures forall i :: 0 <= i < |apps| ==> r[i + 1] == WriteRecord(CsvCells(clients, services, apps[i]))
  {
    Map(CsvTable(clients, services, apps), WriteRecord)
  }

  /** The report with every cell written as a CSV field, quoted where it
      needs to be: what `csvContent` is meant to hold. */
  function CsvText(clients: seq<Client>, services: seq<Service>, apps: seq<Appointment>): string
  {
    Join(CsvLines(clients, services, apps), "\n")
  }

  /** `csvContent` as the page builds it: the unquoted lines joined by line
      breaks. */
  function CsvTextAsWritten(clients: seq<Client>, services: seq<Service>, apps: seq<Appointment>): string
  {
    Join(CsvLinesAsWritten(clients, services, apps), "\n")
  }

  /** No cell of a line needs quoting. */
  predicate PlainRow(cells: seq<string>)
  {
    forall j :: 0 <= j < |cells| ==> !NeedsQuotes(cells[j])
  }

  /** When no appointment's cell holds a comma, a quote or a line break, the
      report as written is exactly the quoted one, so it reads back as
      `CsvLayout` states. */
  lemma CsvAgreesOnPlainCells(clients: seq<Client>, services: seq<Service>, apps: seq<Appointment>)
    requires forall i :: 0 <= i < |apps| ==> PlainRow(CsvCells(clients, services, apps[i]))
    ensures CsvTextAsWritten(clients, services, apps) == CsvText(clients, services, apps)
  {
    var w := CsvLinesAsWritten(clients, services, apps);
    var q := CsvLines(clients, services, apps);
    HeaderLine();
    SummaryPlain(Revenue(apps));
    forall i | 0 <= i < |w|
      ensures w[i] == q[i]
    {
      if 0 < i <= |apps| {
        PlainCells(CsvCells(clients, services, apps[i - 1]));
      }
    }
    assert w == q;
  }

  /** The summary line needs no quoting. */
  lemma SummaryPlain(total: int)
    ensures WriteRecord(SummaryCells(total)) == Join(SummaryCells(total), ",")
  {
    IntToStringChars(total);
    assert !NeedsQuotes("TOTAL") && !NeedsQuotes("");
    PlainCells(SummaryCells(total));
  }

  /** No cell of the report holds a line break. */
  ghost predicate SingleLineCells(clients: seq<Client>, services: seq<Service>, apps: seq<Appointment>)
  {
    forall i :: 0 <= i < |apps| ==>
      '\n' !in apps[i].date && '\n' !in ClientName(clients, apps[i].clientId) &&
      '\n' !in ServiceNames(services, apps[i].serviceIds)
  }

  /** The report is the header line, one line per appointment and the
      summary line `,,TOTAL,<total>`: reading its lines back gives
      `|apps| + 2` of them, and reading each line's fields gives back the
      cells of that line. */
  lemma CsvLayout(clients: seq<Client>, services: seq<Service>, apps: seq<Appointment>)
    requires SingleLineCells(clients, services, apps)
    ensures Split(CsvText(clients, services, apps), '\n') == CsvLines(clients, services, apps)
    ensures |CsvLines(clients, services, apps)| == |apps| + 2
    ensures CsvLines(clients, services, apps)[0] == Join(CsvHeader, ",")
    ensures ReadRecord(CsvLines(clients, services, apps)[0]) == CsvHeader
    ensures CsvLines(clients, services, apps)[|apps| + 1] == ",,TOTAL," + IntToString(Revenue(apps))
    ensures forall i :: 0 <= i < |apps| ==>
              ReadRecord(CsvLines(clients, services, apps)[i + 1]) == CsvCells(clients, services, apps[i])
  {
    CsvLinesSingle(clients, services, apps);
    SplitJoin(CsvLines(clients, services, apps), '\n');
    CsvRowsReadBack(clients, services, apps);
    HeaderLine();
    ReadWriteRecord(CsvHeader);
    SummaryLine(Revenue(apps));
  }

  lemma CsvLinesSingle(clients: seq<Client>, services: seq<Service>, apps: seq<Appointment>)
    requires SingleLineCells(clients, services, apps)
    ensures forall i :: 0 <= i < |CsvLines(clients, services, apps)| ==> '\n' !in CsvLines(clients, services, apps)[i]
  {
    var lines := CsvLines(clients, services, apps);
    RowsSingle(clients, services, apps);
    HeaderSingle();
    SummarySingle(Revenue(apps));
    forall i | 0 <= i < |lines|
      ensures '\n' !in lines[i]
    {
      if 0 < i <= |apps| {
        assert lines[i] == WriteRecord(CsvCells(clients, services, apps[i - 1]));
      }
    }
  }

  lemma RowsSingle(clients: seq<Client>, services: seq<Service>, apps: seq<Appointment>)
    requires SingleLineCells(clients, services, apps)
    ensures forall i :: 0 <= i < |apps| ==> '\n' !in WriteRecord(CsvCells(clients, services, apps[i]))
  {
    forall i | 0 <= i < |apps|
      ensures '\n' !in WriteRecord(CsvCells(clients, services, apps[i]))
    {
      RowSingle(clients, services, apps[i]);
    }
  }

  lemma HeaderSingle()
    ensures '\n' !in WriteRecord(CsvHeader)
  {
    forall i | 0 <= i < |CsvHeader|
      ensures '\n' !in CsvHeader[i]
    {
      if i == 0 {
        assert '\n' !in "Fecha";
      } else if i == 1 {
        assert '\n' !in "Cliente";
      } else if i == 2 {
        assert '\n' !in "Servicios";
      } else {
        assert '\n' !in "Total";
      }
    }
    WriteRecordAvoids(CsvHeader, '\n');
  }

  lemma SummarySingle(total: int)
    ensures '\n' !in WriteRecord(SummaryCells(total))
  {
    IntToStringChars(total);
    WriteRecordAvoids(SummaryCells(total), '\n');
  }

  lemma RowSingle(clients: seq<Client>, services: seq<Service>, a: Appointment)
    requires '\n' !in a.date && '\n' !in ClientName(clients, a.clientId)
    requires '\n' !in ServiceNames(services, a.serviceIds)
    ensures '\n' !in WriteRecord(CsvCells(clients, services, a))
  {
    IntToStringChars(a.totalAmount);
    WriteRecordAvoids(CsvCells(clients, services, a), '\n');
  }

  lemma CsvRowsReadBack(clients: seq<Client>, services: seq<Service>, apps: seq<Appointment>)
    ensures forall i :: 0 <= i < |apps| ==>
              ReadRecord(CsvLines(clients, services, apps)[i + 1]) == CsvCells(clients, services, apps[i])
  {
    forall i | 0 <= i < |apps|
      ensures ReadRecord(WriteRecord(CsvCells(clients, services, apps[i]))) == CsvCells(clients, services, apps[i])
    {
      ReadWriteRecord(CsvCells(clients, services, apps[i]));
    }
  }

  /** The header needs no quoting: its line is the one the source writes. */
  lemma HeaderLine()
    ensures WriteRecord(CsvHeader) == Join(CsvHeader, ",")
  {
    assert !NeedsQuotes("Fecha") && !NeedsQuotes("Cliente");
    assert !NeedsQuotes("Servicios") && !NeedsQuotes("Total");
    PlainCells(CsvHeader);
  }

  lemma SummaryLine(total: int)
    ensures WriteRecord(SummaryCells(total)) == ",,TOTAL," + IntToString(total)
  {
    IntToStringChars(total);
    assert !NeedsQuotes("TOTAL");
    PlainCells(SummaryCells(total));
    JoinFour("", "", "TOTAL", IntToString(total), ",");
  }

  /** As written, an appointment with two or more services makes a line
      whose cells cannot be read back: the service names are joined by
      ", " and the commas split that cell into several fields. */
  lemma CsvAsWrittenSplitsServices(clients: seq<Client>, services: seq<Service>, apps: seq<Appointment>, i: nat)
    requires i < |apps| && |apps[i].serviceIds| >= 2
    requires '"' !in CsvLinesAsWritten(clients, services, apps)[i + 1]
    ensures |ReadRecord(CsvLinesAsWritten(clients, services, apps)[i + 1])| > 4
  {
    var cells := CsvCells(clients, services, apps[i]);
    var line := CsvLinesAsWritten(clients, services, apps)[i + 1];
    assert line == Join(cells, ",");
    ReadPlainIsSplit(line);
    var names := ServiceNameList(services, apps[i].serviceIds);
    assert ServiceNames(services, apps[i].serviceIds) == names[0] + ", " + Join(names[1..], ", ");
    assert ',' in cells[2] by {
      assert cells[2][|names[0]|] == ',';
    }
    assert cells == [cells[0], cells[1], cells[2], cells[3]];
    JoinSplitsMore(cells, 2);
  }
}
