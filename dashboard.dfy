/** The dashboard lists: the next five scheduled appointments and five
    clients who have not come back in thirty days. */
module Dashboard {
  import opened Seqs
  import opened Text
  import opened Calendar
  import opened Types

  // ---------------------------------------------------------------- upcoming appointments

  /** Scheduled, and dated today or later under string comparison. */
  function IsUpcoming(today: string): Appointment -> bool
  {
    (a: Appointment) => a.status == Scheduled && LexLe(today, a.date)
  }

  /** The comparator, as `cmp(a, b) <= 0`: by date, then by start time. */
  function ByDateThenStart(): (Appointment, Appointment) -> bool
  {
    (a: Appointment, b: Appointment) =>
      if a.date != b.date then LexLe(a.date, b.date) else LexLe(a.startTime, b.startTime)
  }

  lemma ByDateThenStartIsTotalPreorder()
    ensures TotalPreorder(ByDateThenStart())
  {
    var le := ByDateThenStart();
    forall a, b
      ensures le(a, b) || le(b, a)
    {
      LexLeTotal(a.date, b.date);
      LexLeTotal(a.startTime, b.startTime);
    }
    forall a, b, c | le(a, b) && le(b, c)
      ensures le(a, c)
    {
      if a.date == b.date == c.date {
        LexLeTransitive(a.startTime, b.startTime, c.startTime);
      } else if a.date != b.date && b.date != c.date {
        LexLeTransitive(a.date, b.date, c.date);
        if a.date == c.date {
          LexLeAntisymmetric(a.date, b.date);
        }
      }
    }
  }

  /** `upcomingAppointments`: filter, sort, then the first five. */
  function Upcoming(apps: seq<Appointment>, today: string): (r: seq<Appointment>)
    ensures |r| == if |Filter(apps, IsUpcoming(today))| <= 5 then |Filter(apps, IsUpcoming(today))| else 5
  {
    Take(SortBy(Filter(apps, IsUpcoming(today)), ByDateThenStart()), 5)
  }

  /** At most five appointments, each taken from the store and scheduled for
      today or later. */
  lemma UpcomingMembers(apps: seq<Appointment>, today: string)
    ensures |Upcoming(apps, today)| <= 5
    ensures forall i :: 0 <= i < |Upcoming(apps, today)| ==>
              Upcoming(apps, today)[i] in apps &&
              Upcoming(apps, today)[i].status == Scheduled && LexLe(today, Upcoming(apps, today)[i].date)
  {
    var f := Filter(apps, IsUpcoming(today));
    var s := SortBy(f, ByDateThenStart());
    var r := Upcoming(apps, today);
    forall i | 0 <= i < |r|
      ensures r[i] in apps && IsUpcoming(today)(r[i])
    {
      assert r[i] == s[i];
      assert s[i] in multiset(f);
    }
  }

  /** The list is in date and start-time order. */
  lemma UpcomingSorted(apps: seq<Appointment>, today: string)
    ensures Sorted(Upcoming(apps, today), ByDateThenStart())
  {
    var f := Filter(apps, IsUpcoming(today));
    ByDateThenStartIsTotalPreorder();
    SortBySorted(f, ByDateThenStart());
  }

  /** An upcoming appointment left out comes after every one shown. */
  lemma UpcomingFirst(apps: seq<Appointment>, today: string, a: Appointment)
    requires a in apps && IsUpcoming(today)(a) && a !in Upcoming(apps, today)
    ensures forall i :: 0 <= i < |Upcoming(apps, today)| ==> ByDateThenStart()(Upcoming(apps, today)[i], a)
  {
    var f := Filter(apps, IsUpcoming(today));
    var s := SortBy(f, ByDateThenStart());
    var r := Upcoming(apps, today);
    ByDateThenStartIsTotalPreorder();
    SortBySorted(f, ByDateThenStart());
    assert a in multiset(s);
    var j :| 0 <= j < |s| && s[j] == a;
    assert j >= |r|;
    forall i | 0 <= i < |r|
      ensures ByDateThenStart()(r[i], a)
    {
      assert r[i] == s[i] && i < j;
    }
  }

  /** With at most five upcoming appointments, all of them are shown. */
  lemma UpcomingShowsAllFew(apps: seq<Appointment>, today: string)
    requires |Filter(apps, IsUpcoming(today))| <= 5
    ensures multiset(Upcoming(apps, today)) == multiset(Filter(apps, IsUpcoming(today)))
  {
  }

  // ---------------------------------------------------------------- inactive clients

  /** `thirtyDaysAgo`: the current moment, thirty days earlier. */
  function ThirtyDaysAgo(now: Moment): (r: Moment)
    requires ValidMoment(now)
    ensures ValidMoment(r) && DayNumber(r.date) == DayNumber(now.date) - 30 && r.ms == now.ms
  {
    AddDaysNumber(now.date, -30);
    Moment(AddDays(now.date, -30), now.ms)
  }

  /** No visit recorded (`null` or the empty string) counts as inactive; a
      visit date that does not read as a date is an invalid `Date`, which is
      never earlier than anything; otherwise the visit's midnight must lie
      before `thirtyDaysAgo`. */
  predicate IsInactive(c: Client, now: Moment)
    requires ValidMoment(now)
  {
    match c.lastVisit
    case None => true
    case Some(v) =>
      v == "" ||
      match ParseDate(v)
      case None => false
      case Some(d) => Midnight(d) < Instant(ThirtyDaysAgo(now))
  }

  function Inactive(now: Moment): Client -> bool
    requires ValidMoment(now)
  {
    (c: Client) => IsInactive(c, now)
  }

  /** `inactiveClients`: the inactive clients in store order, the first five. */
  function InactiveClients(clients: seq<Client>, now: Moment): (r: seq<Client>)
    requires ValidMoment(now)
    ensures |r| <= 5
    ensures forall i :: 0 <= i < |r| ==> IsInactive(r[i], now)
    ensures Subseq(r, clients)
  {
    var f := Filter(clients, Inactive(now));
    FilterIsSubseq(clients, Inactive(now));
    SubseqPrefix(Take(f, 5), f, clients);
    Take(f, 5)
  }

  /** Among the first inactive clients: when fewer than five are inactive
      all of them are listed, and otherwise the list is the first five. */
  lemma InactiveClientsFirst(clients: seq<Client>, now: Moment)
    requires ValidMoment(now)
    ensures InactiveClients(clients, now) <= Filter(clients, Inactive(now))
    ensures |Filter(clients, Inactive(now))| <= 5 ==>
              InactiveClients(clients, now) == Filter(clients, Inactive(now))
  {
  }

  /** In days: a visit is old enough when it lies more than thirty days back,
      or exactly thirty days back once the current day has begun. */
  lemma InactiveByDays(c: Client, now: Moment, d: Date)
    requires ValidMoment(now)
    requires c.lastVisit.Some? && ParseDate(c.lastVisit.value) == Some(d)
    ensures IsInactive(c, now) <==>
            DayNumber(d) + 30 < DayNumber(now.date) ||
            (DayNumber(d) + 30 == DayNumber(now.date) && now.ms > 0)
  {
    var t := ThirtyDaysAgo(now);
    assert c.lastVisit.value != "";
    ScaledLess(DayNumber(d), DayNumber(t.date), t.ms);
  }

  /** Comparing whole days scaled to milliseconds against a later offset. */
  lemma ScaledLess(x: int, y: int, ms: int)
    requires 0 <= ms < DayMs
    ensures x * DayMs < y * DayMs + ms <==> x < y || (x == y && ms > 0)
  {
    var k := y - x;
    assert y * DayMs - x * DayMs == k * DayMs;
  }

  /** A client who never came is always inactive, and so is one whose visit
      date is blank. */
  lemma NeverVisitedInactive(c: Client, now: Moment)
    requires ValidMoment(now)
    requires c.lastVisit == None || c.lastVisit == Some("")
    ensures IsInactive(c, now)
  {
  }
}
