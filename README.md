# Beauty-salon back office: the store, the aggregations and the forms

This project models the core of a small back office for a nail and beauty
salon. The back office keeps five collections in one data store: clients,
catalogue services, appointments, transactions and employees. Every page reads
from and writes to that store:

- the dashboard shows the figures of the day, week and month, the next
  appointments and the clients who have not come back;
- the appointment form derives the end time and the total from the chosen
  services;
- the finances page filters the completed appointments by period, ranks the
  services by popularity, steps between periods and exports a CSV report;
- the list pages search, filter, sort and label their records;
- the client, service and employee forms validate their input before
  saving it;
- the header maps the current path to a page title.

Each source file of that core is one Dafny module. Helper modules supply what
the source gets from JavaScript and its libraries:

- `Seqs`: filter, sort, dedupe and sums over sequences;
- `Text`: trimming, lower-casing, `includes`, `startsWith`, `parseInt` and
  decimal printing;
- `Calendar`: civil dates, `yyyy-MM-dd` and `HH:mm` formatting and parsing,
  `setDate` and `setMonth`;
- `Csv`: comma-separated records as section 2 of RFC 4180 describes them, quoting a field that holds a comma, a quote, a line feed or a carriage return;
- `ObjectKeys`: the order of `Object.entries`.

How the source's state is modelled:

- **The store.** It is a class, `DataContext.DataStore`, with one `seq` field
  per collection. Its methods reassign those fields exactly as the React state
  setters replace their arrays.
- **The forms and list pages.** Each is a class whose fields are the
  component's state. The methods are the event handlers, and they call the
  store.
- **Pure computations.** Filters, sums, comparators, validators and the
  title map are functions. Each has lemmas that state what the source
  promises about it.
- **Loops that mutate dictionaries.** The popularity tally and the grouping
  of services by category are methods with loops. Each loop is proved
  against a function that specifies it.
- **The validators.** They fill an error record one field at a time. Each is
  a method proved equal to an error-map function.

"Today" and "now" are parameters:

- a `Calendar.Moment` is a date plus the milliseconds elapsed in that day;
- the local time zone is taken to be UTC;
- a fresh-id function stands in for `uuidv4()`.

Where the code and its design notes disagree, the members that stand for the
code's handlers follow the code. Where the code is evidently wrong, the
intended behaviour is defined beside it, with lemmas that bound the
difference; see Findings. `ServiceForm.ServiceFormState.Submit` validates
with the intended price check, which the page agrees with, because the
browser stops a cleared price before `validate` runs; see Left out. Two places
where the design text and the code differ:

- **Popularity counts occurrences, not appointments.** The design describes
  the count as the number of appointments that reference a service. The code
  adds one per occurrence of the id in the `serviceIds` lists, so an
  appointment that lists a service twice counts twice. `FinancesPage.CountsOf`
  and `FinancesPage.PopularityCountsAddUp` state the code's count.
- **The weekly window misses Sunday.** The design describes a Sunday to
  Saturday window. The code's window keeps the time of day and so loses the
  Sunday; see Findings.

## Model

| member | source | states |
|---|---|---|
| Types.ParseStatus | src/types/index.ts:28 | a stored status is exactly one of `scheduled`, `completed`, `cancelled` |
| Types.StatusNameRoundTrip | src/types/index.ts:28 | every status reads back from its stored name |
| Types.ParseStatusRoundTrip | src/types/index.ts:28 | every readable status string is the name of what it reads as |
| Types.ParsePaymentMethod | src/types/index.ts:45 | a payment method is exactly one of `cash`, `card`, `transfer`, and reads back to its name |
| Types.PaymentMethodRoundTrip | src/types/index.ts:45 | every payment method reads back from its name |
| Types.ParsePaymentStatus | src/types/index.ts:46 | a transaction status is exactly one of `paid`, `pending`, `refunded`, and reads back to its name |
| Types.PaymentStatusRoundTrip | src/types/index.ts:46 | every transaction status reads back from its name |
| Types.Merge | src/contexts/DataContext.tsx:102 | one field of `{ ...record, ...patch }`: the patch's value when present, else the record's |
| Types.PatchClient | src/contexts/DataContext.tsx:100-104 | a shallow merge never changes a client's `id` or `createdAt` |
| Types.PatchService | src/contexts/DataContext.tsx:119-123 | a shallow merge never changes a service's `id` |
| Types.PatchAppointment | src/contexts/DataContext.tsx:143-147 | a shallow merge never changes an appointment's `id` |
| Types.PatchEmployee | src/contexts/DataContext.tsx:171-175 | a shallow merge never changes an employee's `id` |
| Types.PatchLaws | src/contexts/DataContext.tsx:100-104 | an empty patch changes nothing, and applying a patch twice equals applying it once, for all four record kinds |
| Types.AppointmentPatchFields | src/contexts/DataContext.tsx:143-147 | a patch changes the status only when it carries one; a status-only patch changes nothing else |
| DataContext.MaxLength | src/contexts/DataContext.tsx:93 | bounds the length of every id in use |
| DataContext.FreshId | src/contexts/DataContext.tsx:93 | the generated id differs from every id already used |
| DataContext.UpdateWhere | src/contexts/DataContext.tsx:100-104 | `map` by id: same length; records with another id are untouched; records with the id are transformed |
| DataContext.UpdateAbsent | src/contexts/DataContext.tsx:100-104 | updating by an id that no record has leaves the collection unchanged |
| DataContext.UpdateKeepsKeys | src/contexts/DataContext.tsx:100-104 | an id-preserving update keeps the sequence of ids, so it keeps length and order |
| DataContext.UpdateClients | src/contexts/DataContext.tsx:100-104 | `updateClient` on the client list; `UpdateWhere` and `UpdateAbsent` state what it changes |
| DataContext.UpdateServices | src/contexts/DataContext.tsx:119-123 | `updateService` on the service list; `UpdateWhere` and `UpdateAbsent` state what it changes |
| DataContext.UpdateAppointments | src/contexts/DataContext.tsx:143-147 | `updateAppointment` on the appointment list; `UpdateWhere` and `UpdateAbsent` state what it changes |
| DataContext.UpdateEmployees | src/contexts/DataContext.tsx:171-175 | `updateEmployee` on the employee list; `UpdateWhere` and `UpdateAbsent` state what it changes |
| DataContext.RemoveWhere | src/contexts/DataContext.tsx:106-108 | `filter` by id: no survivor has the id; every record with another id survives; order is kept |
| DataContext.RemoveIdempotent | src/contexts/DataContext.tsx:106-108 | a second delete with the same id is a no-op, and deleting an absent id changes nothing |
| DataContext.RemoveCounts | src/contexts/DataContext.tsx:106-108 | exactly the records carrying the id disappear; every other record keeps its number of copies |
| DataContext.NewClientRecord | src/contexts/DataContext.tsx:90-96 | a new client is the form's fields plus the id, today's date as `createdAt`, and `lastVisit` null |
| DataContext.NewServiceRecord | src/contexts/DataContext.tsx:111-115 | a new service is the input's fields plus the id |
| DataContext.NewAppointmentRecord | src/contexts/DataContext.tsx:130-134 | a new appointment is the input's fields plus the id |
| DataContext.NewTransactionRecord | src/contexts/DataContext.tsx:154-158 | a new transaction is the input's fields plus the id |
| DataContext.NewEmployeeRecord | src/contexts/DataContext.tsx:163-167 | a new employee is the input's fields plus the id |
| DataContext.BookingStampsLastVisit | src/contexts/DataContext.tsx:137-140 | booking sets the client's `lastVisit` to the appointment's date whatever it was before; it changes no other client or field, and a dangling `clientId` changes no client |
| DataContext.VisitPatch | src/contexts/DataContext.tsx:137-140 | the `{ lastVisit }` patch of a booking; `BookingStampsLastVisit` states its effect |
| DataContext.Stats | src/contexts/DataContext.tsx:182-216 | the intended figures, with the Sunday-to-Saturday week: the client count, and per window only completed appointments |
| DataContext.StatsAsWritten | src/contexts/DataContext.tsx:194-206 | the figures with the week test as written differ from `Stats` only in the two week fields |
| DataContext.TodayWithinMonth | src/contexts/DataContext.tsx:183-192 | today's count is at most the month's, and so is today's revenue when no amount is negative |
| DataContext.Revenue | src/contexts/DataContext.tsx:211-215 | the `reduce` of `totalAmount`; `TodayWithinMonth` and `EmployeeList.EarningsWithinCompletedRevenue` state its bounds, and `FinancesPage.DashboardAgrees` ties it to the finance page |
| DataContext.WeekStatsAgreeWithoutSunday | src/contexts/DataContext.tsx:194-206 | the written and corrected week figures agree when no appointment falls on the week's Sunday |
| DataContext.WeekAsWrittenMissesSundayRevenue | src/contexts/DataContext.tsx:195-206 | a completed appointment on the week's Sunday counts in the corrected week and not in the written one, unless `now` is exactly midnight |
| DataContext.Loaded | src/contexts/DataContext.tsx:43-66 | each collection starts as what was saved, or else its seed |
| DataContext.AddKeepsIdsUnique | src/contexts/DataContext.tsx:90-98 | appending a record with an unused id keeps the ids of a collection distinct; every `add` method uses it |
| DataContext.RemoveKeepsIdsUnique | src/contexts/DataContext.tsx:106-108 | deleting by id keeps the ids of a collection distinct; every `delete` method uses it |
| DataContext.DataStore.constructor | src/contexts/DataContext.tsx:43-66 | the store holds the saved collections, each falling back to its seed, and transactions fall back to none; ids are unique within each collection exactly when they are in what was loaded |
| DataContext.DataStore.NewId | src/contexts/DataContext.tsx:93 | `uuidv4()`: an id never issued before, recorded as issued |
| DataContext.DataStore.AddClient | src/contexts/DataContext.tsx:90-98 | appends exactly the new client record at the end with a fresh id; every other collection is unchanged; ids that were unique within each collection stay unique |
| DataContext.DataStore.UpdateClient | src/contexts/DataContext.tsx:100-104 | clients become the shallow merge by id; nothing else changes; ids that were unique within each collection stay unique |
| DataContext.DataStore.DeleteClient | src/contexts/DataContext.tsx:106-108 | clients become the filter by id; nothing else changes; ids that were unique within each collection stay unique |
| DataContext.DataStore.AddService | src/contexts/DataContext.tsx:111-117 | appends one service with a fresh id; nothing else changes; ids that were unique within each collection stay unique |
| DataContext.DataStore.UpdateService | src/contexts/DataContext.tsx:119-123 | services become the shallow merge by id; ids that were unique within each collection stay unique |
| DataContext.DataStore.DeleteService | src/contexts/DataContext.tsx:125-127 | services become the filter by id; ids that were unique within each collection stay unique |
| DataContext.DataStore.AddAppointment | src/contexts/DataContext.tsx:130-141 | appends one appointment with a fresh id and stamps the booked client's last visit; services, transactions and employees are unchanged; ids that were unique within each collection stay unique |
| DataContext.DataStore.UpdateAppointment | src/contexts/DataContext.tsx:143-147 | appointments become the shallow merge by id; ids that were unique within each collection stay unique |
| DataContext.DataStore.DeleteAppointment | src/contexts/DataContext.tsx:149-151 | appointments become the filter by id; ids that were unique within each collection stay unique |
| DataContext.DataStore.AddTransaction | src/contexts/DataContext.tsx:154-160 | appends one transaction with a fresh id; ids that were unique within each collection stay unique |
| DataContext.DataStore.AddEmployee | src/contexts/DataContext.tsx:163-169 | appends one employee with a fresh id; ids that were unique within each collection stay unique |
| DataContext.DataStore.UpdateEmployee | src/contexts/DataContext.tsx:171-175 | employees become the shallow merge by id; ids that were unique within each collection stay unique |
| DataContext.DataStore.DeleteEmployee | src/contexts/DataContext.tsx:177-179 | employees become the filter by id; ids that were unique within each collection stay unique |
| DataContext.DataStore.GetDashboardStats | src/contexts/DataContext.tsx:182-216 | the figures as the code computes them, week test included; the day and month figures are those of `Stats` |
| AppointmentForm.FindService | src/pages/appointments/AppointmentForm.tsx:37 | `services.find`: a service with that id from the catalogue, or none exactly when no service has it |
| AppointmentForm.TotalsConcat | src/pages/appointments/AppointmentForm.tsx:36-45 | both `reduce`s distribute over concatenated id lists |
| AppointmentForm.TotalsAreSums | src/pages/appointments/AppointmentForm.tsx:36-45 | the total duration and amount are the sums of the resolved durations and prices |
| AppointmentForm.UnresolvedAddNothing | src/pages/appointments/AppointmentForm.tsx:38 | ids that resolve to no service contribute 0 to both totals |
| AppointmentForm.TotalDurationNonNegative | src/pages/appointments/AppointmentForm.tsx:36-39 | with no negative durations the total is never negative |
| AppointmentForm.Recompute | src/pages/appointments/AppointmentForm.tsx:33-57 | the effect changes only `endTime` and `totalAmount`; with no services or no start time the form is unchanged; it fails only on an unreadable start time |
| AppointmentForm.RecomputeEndTime | src/pages/appointments/AppointmentForm.tsx:48-54 | the end time reads back as start plus total duration modulo 24 h, and the amount is the price total |
| AppointmentForm.RecomputeIdempotent | src/pages/appointments/AppointmentForm.tsx:33-57 | running the effect again changes nothing |
| AppointmentForm.OrElse | src/pages/appointments/AppointmentForm.tsx:19-26 | `s \|\| d` is empty only when the default is |
| AppointmentForm.InitialForm | src/pages/appointments/AppointmentForm.tsx:18-27 | a new form is the first client, today, 10:00 to 11:00, no services, `scheduled`, total 0; an edit keeps the services, status, total and notes, and keeps each of client, date, start and end when it is not empty, else falls back to the first client, today, 10:00 or 11:00 |
| AppointmentForm.FormErrors | src/pages/appointments/AppointmentForm.tsx:83-104 | an error exactly for an empty client, date, start time or service list; no error iff all four are set |
| AppointmentForm.FormErrorMessages | src/pages/appointments/AppointmentForm.tsx:86-100 | each field's message is its own fixed text |
| AppointmentForm.FullPatchReplaces | src/pages/appointments/AppointmentForm.tsx:116-118 | an edit replaces every field but the id with the form's |
| AppointmentForm.MembersAreFilter | src/pages/appointments/AppointmentForm.tsx:137-143 | a category's group is the catalogue filtered by that category |
| AppointmentForm.GroupServices | src/pages/appointments/AppointmentForm.tsx:137-143 | the `forEach` builds one group per distinct category, each the category's services in catalogue order, with the keys in insertion order; the select lists them through `ListedCategories` |
| AppointmentForm.ListedCategories | src/pages/appointments/AppointmentForm.tsx:202 | `Object.entries` of the groups lists every category once; with no integer-like category name it keeps the order in which the catalogue first shows them |
| AppointmentForm.KeysNext | src/pages/appointments/AppointmentForm.tsx:139-141 | a category is added the first time one of its services is seen |
| AppointmentForm.MembersNext | src/pages/appointments/AppointmentForm.tsx:142 | each pushed service joins its own group at the end |
| AppointmentForm.KeysStep | src/pages/appointments/AppointmentForm.tsx:139-141 | the distinct categories after one more service |
| AppointmentForm.MembersStep | src/pages/appointments/AppointmentForm.tsx:142 | a group after one more service |
| AppointmentForm.NewCategoryEmpty | src/pages/appointments/AppointmentForm.tsx:139-141 | a category not seen so far has no services so far |
| AppointmentForm.GroupsPartition | src/pages/appointments/AppointmentForm.tsx:137-143 | every service is in its category's group and in no other |
| AppointmentForm.AppointmentFormState.constructor | src/pages/appointments/AppointmentForm.tsx:18-29 | the form starts with the initial contents and no errors |
| AppointmentForm.AppointmentFormState.RunEffect | src/pages/appointments/AppointmentForm.tsx:33-57 | the form becomes the recomputed one; errors are untouched |
| AppointmentForm.AppointmentFormState.Validate | src/pages/appointments/AppointmentForm.tsx:83-104 | the errors become the error map; the result is true iff it is empty |
| AppointmentForm.AppointmentFormState.Submit | src/pages/appointments/AppointmentForm.tsx:106-134 | an invalid form reaches no store method; a valid edit updates by id; a new booking is added |
| AppointmentList.FindClient | src/pages/appointments/AppointmentList.tsx:59 | `clients.find`: a client with that id, or none exactly when no client has it |
| AppointmentList.ClientName | src/pages/appointments/AppointmentList.tsx:58-61 | the first matching client's name, and 'Cliente desconocido' for a dangling id |
| AppointmentList.ServiceName | src/pages/appointments/AppointmentList.tsx:65-67 | the first matching service's name, and 'Servicio desconocido' for an unknown id |
| AppointmentList.ServiceNameList | src/pages/appointments/AppointmentList.tsx:64-69 | one name per id, in order |
| AppointmentList.ServiceNames | src/pages/appointments/AppointmentList.tsx:64-69 | no ids give the empty text, one id gives its name, and more ids give the first name, `, ` and the names of the rest |
| AppointmentList.FilterByStatus | src/pages/appointments/AppointmentList.tsx:22-24 | a status filter keeps exactly that status, as an order-preserving subsequence |
| AppointmentList.FilterAllKeepsEverything | src/pages/appointments/AppointmentList.tsx:23 | 'all' keeps every appointment in order |
| AppointmentList.DateDelta | src/pages/appointments/AppointmentList.tsx:27 | the millisecond difference is `NaN` exactly when a date is unreadable; otherwise it is negative when the first day is later and 0 when the days are equal |
| AppointmentList.ListOrder | src/pages/appointments/AppointmentList.tsx:25-30 | a `NaN` difference makes the pair equal both ways, with no start-time comparison; readable dates order newest day first, then earlier start |
| AppointmentList.Listed | src/pages/appointments/AppointmentList.tsx:22-30 | the filter, then the stable sort: a reordering of the filtered appointments |
| AppointmentList.UnreadableDateKeepsOrder | src/pages/appointments/AppointmentList.tsx:27-29 | two appointments, one with an unreadable date, keep their input order whatever their start times |
| AppointmentList.NewestFirstIsTotalPreorder | src/pages/appointments/AppointmentList.tsx:25-30 | newest day first, then earlier start, is a total preorder |
| AppointmentList.ListedOrder | src/pages/appointments/AppointmentList.tsx:22-30 | a permutation of the filtered appointments, dates non-increasing, equal dates by ascending start time |
| AppointmentList.ListedByDay | src/pages/appointments/AppointmentList.tsx:25-30 | on readable dates the millisecond comparator sorts as the day order does |
| AppointmentList.RowActions | src/pages/appointments/AppointmentList.tsx:176-193 | complete and cancel are offered iff the status is `scheduled`; edit and delete always |
| AppointmentList.StatusLabel | src/pages/appointments/AppointmentList.tsx:169-171 | the badge text of a status; `StatusLabelsDistinct` states that it tells them apart |
| AppointmentList.StatusLabelsDistinct | src/pages/appointments/AppointmentList.tsx:169-171 | two statuses share a label only when they are the same |
| AppointmentList.StatusPatch | src/pages/appointments/AppointmentList.tsx:45-47 | the `{ status }` payload; `StatusChangeOnlyStatus` states what it changes |
| AppointmentList.StatusChangeOnlyStatus | src/pages/appointments/AppointmentList.tsx:45-47 | a status change rewrites only the status of the appointments with that id |
| AppointmentList.AppointmentListView.constructor | src/pages/appointments/AppointmentList.tsx:15-19 | the list opens on 'all' with nothing selected |
| AppointmentList.AppointmentListView.ChangeStatus | src/pages/appointments/AppointmentList.tsx:45-47 | forwards `{ status }` to the store and nothing else changes |
| AppointmentList.AppointmentListView.ConfirmDelete | src/pages/appointments/AppointmentList.tsx:49-55 | deletes the selected appointment and clears the selection; with no selection nothing changes |
| FinancesPage.CompletedAppointments | src/pages/finances/FinancesPage.tsx:17-19 | exactly the completed appointments |
| FinancesPage.PeriodAppointments | src/pages/finances/FinancesPage.tsx:37-62 | exactly the completed appointments in the period: same day, Sunday to Saturday week, or `yyyy-MM` prefix |
| FinancesPage.InPeriod | src/pages/finances/FinancesPage.tsx:40-60 | the intended date test of each period; `PeriodAppointments` states what it keeps |
| FinancesPage.InPeriodAsWritten | src/pages/finances/FinancesPage.tsx:40-60 | the code's date test, which differs from `InPeriod` only in the week; `PeriodAsWrittenWithin` bounds the difference |
| FinancesPage.PeriodAppointmentsAsWritten | src/pages/finances/FinancesPage.tsx:37-62 | exactly the completed appointments that pass the period test as written |
| FinancesPage.PeriodAsWrittenWithin | src/pages/finances/FinancesPage.tsx:43-52 | the period as written never holds an appointment the intended period lacks |
| FinancesPage.TotalRevenue | src/pages/finances/FinancesPage.tsx:67-70 | `totalRevenue` over the intended period; `DashboardAgrees` and `DayWithinWeekAndMonth` state its properties |
| FinancesPage.PeriodIsOneFilter | src/pages/finances/FinancesPage.tsx:17-62 | the two filters are one order-preserving filter |
| FinancesPage.DashboardAgrees | src/pages/finances/FinancesPage.tsx:37-70 | the day, week and month views report what the dashboard counts and sums |
| FinancesPage.DayWithinWeekAndMonth | src/pages/finances/FinancesPage.tsx:37-70 | the daily view has no more appointments, and no more revenue when amounts are non-negative, than the weekly and monthly views |
| FinancesPage.ServiceIdsStep | src/pages/finances/FinancesPage.tsx:76-80 | the flattened ids grow by one appointment's list at a time |
| FinancesPage.CountsOfOccurrences | src/pages/finances/FinancesPage.tsx:76-80 | the tally holds every booked id and no other, each with its number of occurrences, duplicates included |
| FinancesPage.CountsOf | src/pages/finances/FinancesPage.tsx:76-80 | the tally: each id's count starts at 0 and rises by one per occurrence; `CountsOfOccurrences` and `CountsSnoc` state what it holds |
| FinancesPage.CountsSnoc | src/pages/finances/FinancesPage.tsx:78 | counting one more id is one `(counts[id] \|\| 0) + 1` |
| FinancesPage.TallyNext | src/pages/finances/FinancesPage.tsx:77-79 | one step of the inner loop keeps the tally and the key order |
| FinancesPage.CountInto | src/pages/finances/FinancesPage.tsx:77-79 | the inner `forEach` adds one appointment's ids to the tally |
| FinancesPage.Tally | src/pages/finances/FinancesPage.tsx:74-80 | the nested loops compute the occurrence counts and the first-seen key order |
| FinancesPage.ByCountIsTotalPreorder | src/pages/finances/FinancesPage.tsx:92 | `b.count - a.count` is a total preorder |
| FinancesPage.RowsOf | src/pages/finances/FinancesPage.tsx:82-91 | one row per key, with the count of its occurrences |
| FinancesPage.RowsFromTally | src/pages/finances/FinancesPage.tsx:82-91 | the rows built from the loop's tally are the rows of the specification |
| FinancesPage.PopularityOf | src/pages/finances/FinancesPage.tsx:73-93 | `servicePopularity`; `PopularityRanked`, `PopularityRows`, `PopularityIds`, `PopularityDistinct` and `PopularityCountsAddUp` state its properties |
| FinancesPage.ServicePopularity | src/pages/finances/FinancesPage.tsx:73-93 | the method computes the popularity table |
| FinancesPage.RowsCount | src/pages/finances/FinancesPage.tsx:82-91 | the counts of a table add up to the occurrences of its ids |
| FinancesPage.TableIds | src/pages/finances/FinancesPage.tsx:82 | `Object.entries` yields every booked id once, in some order |
| FinancesPage.PopularityRanked | src/pages/finances/FinancesPage.tsx:92 | counts never increase down the table |
| FinancesPage.PopularityRows | src/pages/finances/FinancesPage.tsx:83-91 | each row is a booked id, its occurrence count, and the service's current name and price times count, or 'Servicio desconocido' and 0 |
| FinancesPage.PopularityIds | src/pages/finances/FinancesPage.tsx:82-92 | the row ids are the distinct booked ids, reordered |
| FinancesPage.PopularityCoversIds | src/pages/finances/FinancesPage.tsx:76-92 | every booked id has a row |
| FinancesPage.PopularityDistinct | src/pages/finances/FinancesPage.tsx:74-92 | no id has two rows |
| FinancesPage.PopularityCountsAddUp | src/pages/finances/FinancesPage.tsx:76-80 | the counts add up to the total length of the period's `serviceIds` lists |
| FinancesPage.Step | src/pages/finances/FinancesPage.tsx:98-121 | a period step always yields a valid date; months are clamped to the target month's last day |
| FinancesPage.StepAsWritten | src/pages/finances/FinancesPage.tsx:98-121 | always a valid date; a month step lands on the day `d.day - 1` days after the target month's first, rolling over as `setMonth` does; other steps are those of `Step` |
| FinancesPage.StepAsWrittenAgreesEarly | src/pages/finances/FinancesPage.tsx:98-121 | on days 1 to 28 the step as written equals the clamped step |
| FinancesPage.StepMoves | src/pages/finances/FinancesPage.tsx:98-121 | steps are ±1 day, ±7 days, or ±1 calendar month with the day never increased |
| FinancesPage.StepBackAndForth | src/pages/finances/FinancesPage.tsx:98-121 | daily and weekly previous-then-next, next-then-previous, return the same date; monthly returns to the same month |
| FinancesPage.MonthStepAsWrittenMisses | src/pages/finances/FinancesPage.tsx:105-118 | as written, previous from 31 March lands on 3 March and next from 31 January on 3 March; the corrected step gives 28 February |
| FinancesPage.FinancesView.constructor | src/pages/finances/FinancesPage.tsx:13-14 | the page opens on the daily view of now |
| FinancesPage.FinancesView.SetPeriod | src/pages/finances/FinancesPage.tsx:13 | switching the period keeps the pivot |
| FinancesPage.FinancesView.GoToPrevious | src/pages/finances/FinancesPage.tsx:98-108 | the pivot moves one day or one week back, or `setMonth` one month back with the day rolling over; the time of day is kept |
| FinancesPage.FinancesView.GoToNext | src/pages/finances/FinancesPage.tsx:111-121 | the pivot moves one day or one week forward, or `setMonth` one month forward with the day rolling over; the time of day is kept |
| FinancesPage.CsvCells | src/pages/finances/FinancesPage.tsx:152-166 | an appointment's line has four cells |
| FinancesPage.CsvRows | src/pages/finances/FinancesPage.tsx:152-167 | one cell list per period appointment, in order |
| FinancesPage.CsvTable | src/pages/finances/FinancesPage.tsx:150-176 | the header, one line per appointment and the summary `,,TOTAL,<revenue>`: count + 2 lines |
| FinancesPage.CsvLinesAsWritten | src/pages/finances/FinancesPage.tsx:173-176 | the unquoted lines: count + 2 of them |
| FinancesPage.CsvLines | src/pages/finances/FinancesPage.tsx:173-176 | the lines with each cell written as a CSV field |
| FinancesPage.CsvText | src/pages/finances/FinancesPage.tsx:173-176 | the intended report text with every cell written as a CSV field; `CsvLayout` states how it reads back |
| FinancesPage.CsvTextAsWritten | src/pages/finances/FinancesPage.tsx:173-176 | `csvContent` as the page builds it; `CsvAgreesOnPlainCells` ties it to `CsvText` |
| FinancesPage.CsvAgreesOnPlainCells | src/pages/finances/FinancesPage.tsx:152-176 | when no cell holds a comma, a quote or a line break, the report as written equals the quoted one |
| FinancesPage.SummaryPlain | src/pages/finances/FinancesPage.tsx:170 | the summary line needs no quoting |
| FinancesPage.CsvLayout | src/pages/finances/FinancesPage.tsx:150-176 | splitting the report at line breaks gives count + 2 lines: the header, lines that read back to each appointment's cells, and `,,TOTAL,<revenue>` |
| FinancesPage.CsvLinesSingle | src/pages/finances/FinancesPage.tsx:173-176 | no report line holds a line break |
| FinancesPage.RowsSingle | src/pages/finances/FinancesPage.tsx:161-166 | appointment lines hold no line break |
| FinancesPage.HeaderSingle | src/pages/finances/FinancesPage.tsx:150 | the header holds no line break |
| FinancesPage.SummarySingle | src/pages/finances/FinancesPage.tsx:170 | the summary holds no line break |
| FinancesPage.RowSingle | src/pages/finances/FinancesPage.tsx:161-166 | an appointment's line has no line break when its cells have none |
| FinancesPage.CsvRowsReadBack | src/pages/finances/FinancesPage.tsx:161-166 | every appointment line reads back to its four cells |
| FinancesPage.HeaderLine | src/pages/finances/FinancesPage.tsx:150-174 | the header line is `Fecha,Cliente,Servicios,Total` |
| FinancesPage.SummaryLine | src/pages/finances/FinancesPage.tsx:170 | the summary line is `,,TOTAL,` and the revenue |
| FinancesPage.CsvAsWrittenSplitsServices | src/pages/finances/FinancesPage.tsx:154-175 | as written, an appointment with two or more services reads back as more than four fields |
| Dashboard.ByDateThenStartIsTotalPreorder | src/pages/Dashboard.tsx:18-25 | by date then start time is a total preorder |
| Dashboard.Upcoming | src/pages/Dashboard.tsx:16-26 | five upcoming appointments, or all of them when there are fewer; `UpcomingMembers`, `UpcomingSorted` and `UpcomingFirst` state which |
| Dashboard.UpcomingMembers | src/pages/Dashboard.tsx:15-26 | at most five, each from the store, scheduled and dated today or later |
| Dashboard.UpcomingSorted | src/pages/Dashboard.tsx:18-25 | ascending by date, ties by start time |
| Dashboard.UpcomingFirst | src/pages/Dashboard.tsx:26 | every upcoming appointment left out sorts after every one shown |
| Dashboard.UpcomingShowsAllFew | src/pages/Dashboard.tsx:16-26 | with five or fewer upcoming, all are shown |
| Dashboard.ThirtyDaysAgo | src/pages/Dashboard.tsx:29-30 | the same time of day, thirty days earlier |
| Dashboard.InactiveClients | src/pages/Dashboard.tsx:32-38 | at most five, all inactive, an order-preserving subsequence of the clients |
| Dashboard.InactiveClientsFirst | src/pages/Dashboard.tsx:38 | the first inactive clients, all of them when five or fewer |
| Dashboard.IsInactive | src/pages/Dashboard.tsx:32-37 | the inactivity test; `InactiveByDays` and `NeverVisitedInactive` state it |
| Dashboard.InactiveByDays | src/pages/Dashboard.tsx:35-36 | a visit counts as old iff its midnight is before now minus 30 days |
| Dashboard.ScaledLess | src/pages/Dashboard.tsx:36 | comparing days in milliseconds |
| Dashboard.NeverVisitedInactive | src/pages/Dashboard.tsx:34 | a client without a last visit is always inactive |
| EmployeeList.FilteredEmployees | src/pages/employees/EmployeeList.tsx:23-26 | exactly the employees whose name or position contains the query ignoring case, in order |
| EmployeeList.EmptySearchKeepsEveryone | src/pages/employees/EmployeeList.tsx:23-26 | an empty query keeps the whole team in order |
| EmployeeList.FindEmployee | src/pages/employees/EmployeeList.tsx:52 | `employees.find`: an employee with that id, or none exactly when none has it |
| EmployeeList.CompletedCount | src/pages/employees/EmployeeList.tsx:49-55 | the count is at most the number of appointments |
| EmployeeList.CompletedAppointmentsOf | src/pages/employees/EmployeeList.tsx:48-54 | only completed appointments from the store, and none for an id that names no employee |
| EmployeeList.TotalEarnings | src/pages/employees/EmployeeList.tsx:58-64 | the amounts of those appointments added up; `EarningsWithinCompletedRevenue` and `UnknownEmployeeZero` state its bounds |
| EmployeeList.CountedAppointments | src/pages/employees/EmployeeList.tsx:50-53 | an appointment counts iff it is in the store, completed and among the employee's ids |
| EmployeeList.UnknownEmployeeZero | src/pages/employees/EmployeeList.tsx:52-61 | an unknown employee id yields 0 appointments and 0 earnings |
| EmployeeList.OpenAppointmentsDoNotCount | src/pages/employees/EmployeeList.tsx:51-60 | adding scheduled or cancelled appointments changes neither figure |
| EmployeeList.DanglingIdsDoNotCount | src/pages/employees/EmployeeList.tsx:52-61 | ids matching no appointment contribute nothing |
| EmployeeList.EarningsWithinCompletedRevenue | src/pages/employees/EmployeeList.tsx:58-64 | with non-negative amounts, earnings lie between 0 and the revenue of all completed appointments |
| EmployeeList.EmployeeListView.constructor | src/pages/employees/EmployeeList.tsx:16-20 | an empty search with nothing selected |
| EmployeeList.EmployeeListView.ConfirmDelete | src/pages/employees/EmployeeList.tsx:40-46 | deletes the selected employee and clears the selection |
| ServiceList.CategoriesShape | src/pages/services/ServiceList.tsx:24 | no duplicates, every service's category and no other, in first-occurrence order |
| ServiceList.Categories | src/pages/services/ServiceList.tsx:24 | no category twice, and every service's category among them |
| ServiceList.FilteredServices | src/pages/services/ServiceList.tsx:27-35 | exactly the services matching name or description and the category filter, in order |
| ServiceList.NoFilterKeepsEverything | src/pages/services/ServiceList.tsx:27-35 | no query and no category keep the whole catalogue |
| ServiceList.CategoryOnlyIsGroup | src/pages/services/ServiceList.tsx:32 | a category alone lists that category's group of the appointment form |
| ServiceList.ServiceListView.constructor | src/pages/services/ServiceList.tsx:16-21 | empty search and category, nothing selected |
| ServiceList.ServiceListView.ConfirmDelete | src/pages/services/ServiceList.tsx:49-55 | deletes the selected service and clears the selection |
| ClientList.FilteredClients | src/pages/clients/ClientList.tsx:23-27 | exactly the clients whose name or email contains the query ignoring case or whose phone contains it, in order |
| ClientList.EmptySearchKeepsEveryone | src/pages/clients/ClientList.tsx:23-27 | an empty query keeps all clients |
| ClientList.NarrowingSearch | src/pages/clients/ClientList.tsx:23-27 | typing more never lists more clients |
| ClientList.ContainsPrefix | src/pages/clients/ClientList.tsx:24-26 | a string containing a query contains each of its prefixes |
| ClientList.LastVisitLabel | src/pages/clients/ClientList.tsx:114-124 | 'Nunca' iff no last visit; otherwise the visit date |
| ClientList.NotesLabel | src/pages/clients/ClientList.tsx:127 | 'Sin notas' for empty notes, else the notes |
| ClientList.ClientListView.constructor | src/pages/clients/ClientList.tsx:16-20 | an empty search with nothing selected |
| ClientList.ClientListView.ConfirmDelete | src/pages/clients/ClientList.tsx:41-47 | deletes the selected client and clears the selection |
| ClientForm.KeptDigits | src/pages/clients/ClientForm.tsx:103-106 | at most ten characters, all digits |
| ClientForm.FormatPhone | src/pages/clients/ClientForm.tsx:102-113 | at most twelve characters, each a digit or a dash; `FormatPhoneDigits`, `FormatPhoneIdempotent` and `FormatPhoneDashed` state the rest |
| ClientForm.DigitsKept | src/pages/clients/ClientForm.tsx:103 | removing non-digits from digits changes nothing |
| ClientForm.DropDash | src/pages/clients/ClientForm.tsx:110-112 | a dash disappears when only digits are kept |
| ClientForm.FormatPhoneDigits | src/pages/clients/ClientForm.tsx:103-113 | deleting the dashes from the output gives back the kept digits |
| ClientForm.TwoDashesDropped | src/pages/clients/ClientForm.tsx:110 | the `ddd-ddd-rest` form minus dashes is the digits |
| ClientForm.OneDashDropped | src/pages/clients/ClientForm.tsx:112 | the `ddd-rest` form minus dashes is the digits |
| ClientForm.FormatPhoneIdempotent | src/pages/clients/ClientForm.tsx:102-113 | formatting a formatted phone changes nothing |
| ClientForm.FormatPhoneDashed | src/pages/clients/ClientForm.tsx:109-110 | ten or more digits give `^\d{3}-\d{3}-\d{4}$` |
| ClientForm.DashedParts | src/pages/clients/ClientForm.tsx:62-110 | groups of three, three and four digits joined by dashes match the dashed pattern |
| ClientForm.NameError | src/pages/clients/ClientForm.tsx:56-58 | no name error iff the trimmed name is non-empty |
| ClientForm.PhoneError | src/pages/clients/ClientForm.tsx:60-64 | no phone error iff non-blank and dashed or ten digits |
| ClientForm.EmailError | src/pages/clients/ClientForm.tsx:66-70 | no email error iff non-blank and matching `\S+@\S+\.\S+` |
| ClientForm.ClientFormErrors | src/pages/clients/ClientForm.tsx:53-74 | one entry per failing field; empty iff all three pass |
| ClientForm.FormattedPhoneAccepted | src/pages/clients/ClientForm.tsx:62-110 | a formatted phone of ten or more digits passes `validate` |
| ClientForm.EmailExamples | src/pages/clients/ClientForm.tsx:68 | `ana@mail.com` matches, `ana@mail` does not |
| ClientForm.InitialClientForm | src/pages/clients/ClientForm.tsx:18-25 | a new form is empty with `lastVisit` null; an edit keeps the client's fields and last visit |
| ClientForm.FullClientPatchReplaces | src/pages/clients/ClientForm.tsx:86-88 | an edit keeps `id` and `createdAt` and takes the rest from the form |
| ClientForm.ClientFormState.constructor | src/pages/clients/ClientForm.tsx:18-27 | the initial contents and no errors |
| ClientForm.ClientFormState.PhoneChange | src/pages/clients/ClientForm.tsx:102-119 | stores the formatted phone; nothing else changes |
| ClientForm.ClientFormState.Validate | src/pages/clients/ClientForm.tsx:53-74 | the errors become the error map; true iff empty |
| ClientForm.ClientFormState.Submit | src/pages/clients/ClientForm.tsx:76-99 | an invalid form reaches no store method; an edit updates by id; a new client is appended |
| ServiceForm.DefaultCategory | src/pages/services/ServiceForm.tsx:25 | the first category, or '' when there are none |
| ServiceForm.InitialServiceForm | src/pages/services/ServiceForm.tsx:20-26 | a new form has duration 30, price 0 and the default category; an edit keeps the service's values, with a zero duration read as 30 |
| ServiceForm.Changed | src/pages/services/ServiceForm.tsx:30-48 | text inputs store the value; duration and price store the parsed number |
| ServiceForm.NumberInputsRead | src/pages/services/ServiceForm.tsx:34-42 | a number's decimal text is read back as that number; a cleared input is `NaN` |
| ServiceForm.DurationError | src/pages/services/ServiceForm.tsx:94-96 | no duration error iff a number above 0 |
| ServiceForm.PriceErrorAsWritten | src/pages/services/ServiceForm.tsx:98-100 | as written: no price error iff `NaN` or at least 0 |
| ServiceForm.PriceError | src/pages/services/ServiceForm.tsx:98-100 | corrected: no price error iff a number of at least 0 |
| ServiceForm.ErrorsGiven | src/pages/services/ServiceForm.tsx:83-108 | one entry per failing field: blank name, blank description, bad duration, price error, blank category |
| ServiceForm.ServiceFormErrorsAsWritten | src/pages/services/ServiceForm.tsx:83-108 | `validate` as written; `NaNPriceAcceptedAsWritten` and `NaNPriceRejected` state how it differs from the intended check |
| ServiceForm.ServiceFormErrors | src/pages/services/ServiceForm.tsx:83-108 | `validate` with the intended price check; `NoErrorsIffSensible` states when it is empty |
| ServiceForm.NaNPriceAcceptedAsWritten | src/pages/services/ServiceForm.tsx:98-100 | as written, a draft whose price is `NaN` has no errors |
| ServiceForm.NaNPriceRejected | src/pages/services/ServiceForm.tsx:98-100 | corrected, a `NaN` price is refused, and on numbers the two checks agree |
| ServiceForm.NoErrorsIffSensible | src/pages/services/ServiceForm.tsx:83-108 | no errors iff non-blank texts, a positive duration and a non-negative price |
| ServiceForm.NumberBounds | src/pages/services/ServiceForm.tsx:94-100 | price 0 is accepted; a zero, negative or missing duration is refused |
| ServiceForm.NewFormErrors | src/pages/services/ServiceForm.tsx:20-108 | a new form has no number errors, but name and description errors, and a category error iff there are no categories |
| ServiceForm.ToInput | src/pages/services/ServiceForm.tsx:122-125 | the saved service carries the draft's fields |
| ServiceForm.FullServicePatchReplaces | src/pages/services/ServiceForm.tsx:120-122 | an edit keeps the id and takes every other field from the form |
| ServiceForm.CollectErrors | src/pages/services/ServiceForm.tsx:84-104 | filling the record field by field gives the error map |
| ServiceForm.ServiceFormState.constructor | src/pages/services/ServiceForm.tsx:17-28 | the initial contents, no errors, the new-category input closed and empty |
| ServiceForm.ServiceFormState.Change | src/pages/services/ServiceForm.tsx:30-48 | the form becomes the changed form |
| ServiceForm.ServiceFormState.CategoryChange | src/pages/services/ServiceForm.tsx:59-70 | 'new' only opens the input, keeping the category; any other value is stored |
| ServiceForm.ServiceFormState.NewCategoryChange | src/pages/services/ServiceForm.tsx:243-244 | the typed text is held in `newCategory` |
| ServiceForm.ServiceFormState.NewCategorySubmit | src/pages/services/ServiceForm.tsx:72-81 | a non-blank name is stored trimmed and the input closes and clears; a blank one changes nothing |
| ServiceForm.ServiceFormState.CancelNewCategory | src/pages/services/ServiceForm.tsx:258-263 | closes the input and restores the default category |
| ServiceForm.ServiceFormState.Validate | src/pages/services/ServiceForm.tsx:83-108 | the errors become the intended error map, `ServiceFormErrors`; true iff empty |
| ServiceForm.ServiceFormState.Submit | src/pages/services/ServiceForm.tsx:110-133 | saves iff the draft is sensible; an edit updates by id, a new service is appended |
| ServiceForm.NewCategoryIsUsable | src/pages/services/ServiceForm.tsx:72-104 | a submitted new category passes the category check and is already trimmed |
| EmployeeForm.InitialEmployeeForm | src/pages/employees/EmployeeForm.tsx:17-21 | a new form is empty with no appointments; an edit copies the employee's fields |
| EmployeeForm.Changed | src/pages/employees/EmployeeForm.tsx:25-30 | the typed value overwrites its field; the appointment ids are kept |
| EmployeeForm.EmployeeFormErrors | src/pages/employees/EmployeeForm.tsx:41-54 | a name error iff the name is blank, a position error iff the position is blank; empty iff neither |
| EmployeeForm.OptionsAgainstCheck | src/pages/employees/EmployeeForm.tsx:115-122 | eight options; only the placeholder fails the position check |
| EmployeeForm.FullEmployeePatchReplaces | src/pages/employees/EmployeeForm.tsx:66-68 | an edit keeps the id and takes every field, the appointment ids included, from the form |
| EmployeeForm.CollectErrors | src/pages/employees/EmployeeForm.tsx:42-50 | filling the record field by field gives the error map |
| EmployeeForm.EmployeeFormState.constructor | src/pages/employees/EmployeeForm.tsx:17-23 | the initial contents and no errors |
| EmployeeForm.EmployeeFormState.Change | src/pages/employees/EmployeeForm.tsx:25-30 | the form becomes the changed form; the carried appointment ids stay |
| EmployeeForm.EmployeeFormState.Validate | src/pages/employees/EmployeeForm.tsx:41-54 | the errors become the error map; true iff empty |
| EmployeeForm.EmployeeFormState.Submit | src/pages/employees/EmployeeForm.tsx:56-79 | an invalid form reaches no store method; an edit carries the appointment ids unchanged; a new employee has none |
| Header.PageTitle | src/components/Layout/Header.tsx:8-19 | the title is always one of the seven listed |
| Header.RootOnly | src/components/Layout/Header.tsx:11 | 'Dashboard' exactly for `/` |
| Header.SectionPage | src/components/Layout/Header.tsx:12-16 | every path starting with a section prefix shows that section's title |
| Header.OtherPaths | src/components/Layout/Header.tsx:11-18 | `/x`, the empty path and `/clientes` fall through to 'Pepe Backoffice' |
| Calendar.FormatDate | src/contexts/DataContext.tsx:183-184 | `yyyy-MM-dd` starts with the `yyyy-MM` of the same date |
| Calendar.ParseDate | src/contexts/DataContext.tsx:195-206 | a date-only `yyyy-MM-dd` text reads as a valid date, anything else as an invalid one; `ParseFormatDate` and `FormatParseDate` are its round trips |
| Calendar.ParseFormatDate | src/contexts/DataContext.tsx:183 | a formatted date parses back to itself |
| Calendar.FormatParseDate | src/pages/finances/FinancesPage.tsx:50 | a readable date string is the format of what it reads as |
| Calendar.SameDayImpliesSameMonth | src/contexts/DataContext.tsx:183-191 | today's date string starts with the current month string |
| Calendar.ParseTime | src/pages/appointments/AppointmentForm.tsx:48 | a read time lies within the day |
| Calendar.ParseFormatTime | src/pages/appointments/AppointmentForm.tsx:48-53 | `HH:mm` of a time reads back as that time |
| Calendar.FormatParseTime | src/pages/appointments/AppointmentForm.tsx:48-53 | a readable `HH:mm` string is the format of its time |
| Calendar.AddMinutesWrapped | src/pages/appointments/AppointmentForm.tsx:49 | adding minutes wraps modulo 24 h |
| Calendar.AddDaysNumber | src/pages/finances/FinancesPage.tsx:101-114 | `setDate(getDate() + k)` moves by exactly k days |
| Calendar.AddDaysInverse | src/pages/finances/FinancesPage.tsx:101-114 | moving k days and back returns the date |
| Calendar.NormalizeDayCorrect | src/pages/finances/FinancesPage.tsx:101-114 | a day number out of the month's range rolls into a valid date that many days from the month's first, as `setDate` does |
| Calendar.ShiftMonth | src/pages/finances/FinancesPage.tsx:105-118 | shifting k months gives a valid month exactly k months away, carrying into the year |
| Calendar.AddMonthsOverflow | src/pages/finances/FinancesPage.tsx:105-118 | `setMonth`: a valid date that lies `day - 1` days after the first of the target month, so a day the month lacks rolls over |
| Calendar.AddMonthsClamped | src/pages/finances/FinancesPage.tsx:105-118 | the clamped month step lands in the month k later |
| Calendar.WeekBounds | src/contexts/DataContext.tsx:196-197 | week start is the Sunday at most six days back, and the end is six days later |
| Calendar.WeekStart | src/contexts/DataContext.tsx:196-197 | the start of `now`'s week at `now`'s time of day; `WeekBounds` and `WeekStartNumber` state that it is the Sunday of that week |
| Calendar.InWeekAsWritten | src/pages/finances/FinancesPage.tsx:44-52 | the code's test against instants; `WeekAsWrittenMissesSunday` and `InWeekAsWrittenWithin` state how it differs from `InWeek` |
| Calendar.InWeek | src/contexts/DataContext.tsx:195-206 | the intended seven days; `InWeekSundayToSaturday` and `InWeekHoldsToday` state its shape |
| Calendar.InWeekSundayToSaturday | src/pages/finances/FinancesPage.tsx:44-51 | a date in the week lies its weekday number of days after Sunday |
| Calendar.InWeekHoldsToday | src/contexts/DataContext.tsx:195-206 | today is in this week |
| Calendar.WeekTestsAgreeAfterSunday | src/contexts/DataContext.tsx:199-205 | the written and corrected week tests agree on every date but the Sunday |
| Calendar.WeekAsWrittenMissesSunday | src/contexts/DataContext.tsx:196-202 | the written test misses the week's Sunday unless now is midnight |
| Calendar.InWeekAsWrittenWithin | src/contexts/DataContext.tsx:194-206 | every date the written week test accepts is in the Sunday-to-Saturday week |
| Text.ToLower | src/pages/clients/ClientList.tsx:24-25 | same length, each character lower-cased |
| Text.TrimIdempotent | src/pages/services/ServiceForm.tsx:76 | trimming twice is trimming once |
| Text.BlankError | src/pages/clients/ClientForm.tsx:56-58 | an error exactly for a string blank after trimming |
| Text.BlankIffAllSpace | src/pages/clients/ClientForm.tsx:56 | blank after trimming iff all white space |
| Text.ContainsIff | src/pages/clients/ClientList.tsx:24-26 | `includes` iff the query occurs at some position |
| Text.ContainsEmpty | src/pages/clients/ClientList.tsx:24-26 | every string includes the empty query |
| Text.ParseIntOfIntToString | src/pages/services/ServiceForm.tsx:35-37 | `parseInt` reads back a number's decimal text |
| Text.ParseInt | src/pages/services/ServiceForm.tsx:35-37 | `parseInt`: white space, an optional sign, the longest digit run, else `NaN`; `ParseIntOfIntToString` and `ServiceForm.NumberInputsRead` state how it reads back |
| Csv.ReadWriteRecord | src/pages/finances/FinancesPage.tsx:175 | a written record reads back to its fields, whatever they hold |
| Csv.ReadPlainIsSplit | src/pages/finances/FinancesPage.tsx:175 | unquoted text reads as its split at the commas |
| Csv.JoinSplitsMore | src/pages/finances/FinancesPage.tsx:159-175 | a part holding a comma makes the joined line split into more parts |
| ObjectKeys.EntriesOrderPermutes | src/pages/finances/FinancesPage.tsx:82 | `Object.entries` lists each key once |
| ObjectKeys.EntriesOrderShape | src/pages/finances/FinancesPage.tsx:82 | integer-like keys first in ascending order, then the others in insertion order |
| ObjectKeys.EntriesOrderOfNames | src/pages/finances/FinancesPage.tsx:82 | without integer-like keys the order is insertion order |

## Left out

- Persistence: loading from and saving to `localStorage` and `JSON.parse`. These are I/O. The constructor takes the saved collections as options, absent meaning the seed. Malformed saved text is not modelled, because the code has no fallback for it.
- The seed data in src/data/*.ts: the constructor takes the seeds as parameters, and no fixture is written out.
- The clock and time zones: `now` and `today` are parameters, and the local zone is taken to be UTC. So the dashboard's `toISOString` date and the `date-fns` local format agree in the model.
- `uuidv4()`: the model uses a deterministic fresh id that avoids every id ever issued.
- Floating point: amounts, durations and prices are integers.
- ServiceForm.Changed: reads the price with the integer parser, so a fractional price such as `12.5` is not modelled.
- `Math.round` averages, the daily revenue chart and its bar heights: these are floating point and presentation.
- Text.ToLower: lowers the ASCII capitals and the Latin-1 capitals U+00C0 to U+00DE except U+00D7, which covers Spanish. Capitals of other scripts, such as Greek and Cyrillic, are not lowered, and neither are the special cases of `toLowerCase`, such as 'İ'.
- `localeCompare`: string order is lexicographic by code point.
- Strings: a Dafny string is a sequence of Unicode scalar values, while JavaScript counts UTF-16 code units. Lengths and indices differ only for characters outside the Basic Multilingual Plane, such as emoji.
- ServiceForm.ServiceFormState.Submit: validates with the intended price check, so it refuses a cleared (`NaN`) price. The page does the same, by another route: the price input is `required` (ServiceForm.tsx:227), in a form without `noValidate` (ServiceForm.tsx:136), so the browser blocks the submit before `handleSubmit` and `validate` run. `validate` itself passes a `NaN` price when it is called; `ServiceForm.ServiceFormErrorsAsWritten` and `ServiceForm.NaNPriceAcceptedAsWritten` state this.
- ServiceForm.ServiceFormState.Submit: the browser's checks on the number inputs are not modelled beyond that cleared price. The duration input has `min={5}` and `step={5}` (ServiceForm.tsx:190-191), and the price input has `min={0}` and `step={5}` (ServiceForm.tsx:220-221). So the browser refuses a duration of 7 or a price of 12, which the model's `Submit` saves. The `required` text inputs add nothing, since `validate` already refuses a blank name, description or category.
- ServiceForm.ServiceFormState.Validate: fills the record with the intended price check, for the same reason as `Submit`. On every draft whose price is a number it equals `validate` as written; `ServiceForm.NaNPriceRejected` states this.
- FinancesPage.TotalRevenue: sums the intended period, so it includes the week's Sunday, which the code's weekly total leaves out. `FinancesPage.PeriodAsWrittenWithin` bounds the difference.
- Types.PatchClient, Types.PatchService, Types.PatchAppointment, Types.PatchEmployee: the patch types leave out `id`, and `createdAt` for clients. The source's `Partial<...>` types would allow them, but no caller ever passes them, so the merges keep those fields by construction rather than by proof.
- Locale date labels: the period caption and the last-visit date text are not modelled.
- The download step of the CSV export (Blob, object URL, link click): the model stops at the text.
- React effect scheduling: the recompute effect is a function that the form applies when asked.
- Clearing a field's error on a keystroke: not modelled.
- `isSubmitting`, modal open and close flags, `onClose`, and the try/catch around store calls: none of these are modelled.
- The commented-out employee linking on booking: it is not in the code that runs, so it is not modelled.
- Error record keys: each form's error record is keyed by a datatype of its fields rather than by the field-name strings. Only membership and messages matter to the forms.
- JSX, layout and UI components: these are presentation.
- AppointmentForm.GroupServices: groups into a map, so a category named like an `Object.prototype` property (`constructor`, `toString`, `valueOf`, `hasOwnProperty`, `isPrototypeOf`, `propertyIsEnumerable`, `toLocaleString`, `__proto__`, `__defineGetter__`, `__defineSetter__`, `__lookupGetter__`, `__lookupSetter__`) is grouped like any other. In the code `groupedServices[category]` finds the inherited value, no array is created, `.push` throws a `TypeError` and the form does not render. The service form stores any trimmed text as a new category, so such a name can be reached. `AppointmentForm.ListedCategories` inherits the same gap.
- AppointmentList.Listed: when some dates are unreadable the comparator is not consistent, and the order that JavaScript's `sort` then gives depends on the engine. The model takes the order of a stable insertion sort, which keeps any pair that involves an unreadable date in input order when the two are compared; `AppointmentList.ListedOrder` states the order for readable dates.
- Dashboard.IsInactive: reads the stored `lastVisit` as a `yyyy-MM-dd` date at midnight. Any other text counts as not inactive, which stands in for the `Invalid Date` comparison in the code (always false).

## Findings

| source | as written | input that shows it | evidently intended | confidence | as-written member | corrected member |
|---|---|---|---|---|---|---|
| src/contexts/DataContext.tsx:195-206 | the week starts at the current time of day on Sunday, and is compared with dates at midnight | now = a Saturday at 15:00; a completed appointment dated the Sunday before | Sunday to Saturday, whole days | not executed | DataContext.WeekAsWrittenMissesSundayRevenue | DataContext.Stats |
| src/pages/finances/FinancesPage.tsx:44-52 | the same week window in the weekly report | pivot at any time after midnight; an appointment on that week's Sunday | the week's Sunday is included | not executed | Calendar.WeekAsWrittenMissesSunday | FinancesPage.PeriodAppointments |
| src/pages/finances/FinancesPage.tsx:98-121 | `setMonth` keeps day 31 and rolls into the month after | previous month from 2023-03-31 gives 2023-03-03 | 2023-02-28, the month before | not executed | FinancesPage.MonthStepAsWrittenMisses | FinancesPage.StepMoves |
| src/pages/finances/FinancesPage.tsx:154-176 | cells are joined by `,` with no quoting, while service names are joined by `, ` | an appointment with services 'Manicura' and 'Pedicura' | four fields per line | not executed | FinancesPage.CsvAsWrittenSplitsServices | FinancesPage.CsvLayout |
| src/pages/services/ServiceForm.tsx:98-100 | `price < 0` is false for `NaN`, so `validate` passes a cleared price when it is called; on the page the input's `required` attribute stops that price before `validate` runs | `validate` called on a draft with name 'Corte', description 'Corte y peinado', duration 30, category 'Cabello' and a cleared price | `validate` refuses any price that is not a number | not executed | ServiceForm.NaNPriceAcceptedAsWritten | ServiceForm.NoErrorsIffSensible |

The handlers follow the code:

- `DataContext.DataStore.GetDashboardStats` returns `StatsAsWritten`;
- `FinancesPage.FinancesView.GoToPrevious` and `GoToNext` step with `StepAsWritten`;
- `FinancesPage.CsvTextAsWritten` is the report the page builds.

The intended definitions sit beside them with their properties proved:
`DataContext.Stats`, `FinancesPage.PeriodAppointments`, `FinancesPage.Step` and
`FinancesPage.CsvText`. Lemmas bound the difference:

- `DataContext.WeekStatsAgreeWithoutSunday`;
- `FinancesPage.PeriodAsWrittenWithin`;
- `FinancesPage.StepAsWrittenAgreesEarly`;
- `FinancesPage.CsvAgreesOnPlainCells`.

`ServiceForm.ServiceFormState.Submit` validates with the intended price check, which matches the page because the browser blocks a cleared price first; see Left out.
