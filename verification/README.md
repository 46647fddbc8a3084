# Dental clinic back end: in-memory storage and route logic

This project models the server core of a clinic-management web application. The core has three parts:

- **The schema.** It defines nine entities: users (with the roles manager, doctor, secretary and nurse), patients, services, inventory items, appointments, treatment plans, financial transactions, inventory consumption and WhatsApp messages.
- **The in-memory store.** It keeps one id-keyed map per entity, with one id counter each. It offers create, read, update and scan operations and four analytics reports.
- **The HTTP route layer.** It contributes:
  - the `authenticate` and `checkRole` gates;
  - login and the current-user endpoint;
  - the per-endpoint role allow-lists;
  - the 400/404 answers of the id routes;
  - the enriched lists of today's appointments and of WhatsApp messages;
  - the dashboard summary.

Modules:

- `Wrappers`: `Option`.
- `Time`: a local calendar instant, day windows and month arithmetic.
- `Schema`: the entities, their insert shapes, the partial-update patches and their merge.
- `Tables`: one id-keyed map with its counter, its ascending-id listing, `Filter` and `Find`.
- `Storage`: the store and every storage operation.
- `Analytics`: the twelve-month series, status counts and consumption per item name.
- `Lookups`: the memoised per-key lookups the enriching routes perform.
- `Auth`: the session gates, the allow-lists, login and `me`.
- `Routes`: the remaining route handlers.

Every operation is a pure function from a store (and a session, and the current instant where the source reads the clock) to a new store and a reply.

Choices of representation:

- **Records nest their insert shape.** For example, a `Patient` is `Patient(id, data: InsertPatient, createdAt)`. So `{ ...insert, id, createdAt }` and a partial update can never change the id or the timestamp.
- **Nullable and defaulted fields are `Option`.** A patch field of a nullable column is `Option<Option<T>>`: absent, or set to null, or set to a value.
- **An id that does not parse as an integer is `None`.** This is the `NaN` case.
- **Listings follow the map's insertion order.** Ids are handed out 1, 2, 3, … and never removed, so that order is ascending id. `Tables.Rows` gives it.
- **Time is the local calendar date.** An instant is its year, month (0–11), day of the month and millisecond of the day, ordered lexicographically.

## Model

| member | source | states |
|---|---|---|
| `Time.StartOfDay` | server/storage.ts:606-607 | midnight is on the same calendar day, not after the instant, and not after any instant of that day: it is the day's first millisecond |
| `Time.EndOfDay` | server/storage.ts:609-610 | 23:59:59.999 is on the same calendar day, not before the instant, and not before any instant of that day: it is the day's last millisecond |
| `Time.DayWindowIsCalendarDay` | server/storage.ts:605-617 | an instant lies in the inclusive [start of day, end of day] window exactly when it is on that calendar day |
| `Time.ShiftMonths` | server/storage.ts:739-740 | `new Date(year, month - i, 1)` rolls over years: the shifted month's count (year·12 + month) is the original count plus the shift |
| `Time.MonthCountInjective` | server/storage.ts:740 | two calendar months with the same month count are the same month |
| `Time.MonthDiffIsShift` | server/storage.ts:748-755 | the source's month difference is d exactly when the instant's month is the current month shifted back by d |
| `Time.MonthDiffZeroIsSameMonth` | server/routes.ts:596-600 | difference 0 is the same month and year as now, the dashboard's test |
| `Schema.ColumnStatus` | shared/schema.ts:65 | an appointment without a status reads as pending, the column default; otherwise its own status |
| `Schema.PickLater` | server/storage.ts:528 | two successive spreads of a field equal one spread of the later value when present |
| `Schema.PatientMergeLaws` | server/storage.ts:524-531 | the empty patch changes nothing, and a patch naming every field replaces the whole record body |
| `Schema.PatientMergeCompose` | server/storage.ts:524-531 | merging p then q equals merging their combination, and applying the same patch twice equals applying it once |
| `Schema.StatusPatchChangesOnlyStatus` | server/storage.ts:637-644 | a patch with only `status` changes the status and nothing else |
| `Tables.Empty` | server/storage.ts:100-118 | a new map with counter 1 satisfies the dense-key invariant and lists nothing |
| `Tables.Get` | server/storage.ts:481-483 | `map.get(id)` gives a row exactly when the id is a key, and that row |
| `Tables.Append` | server/storage.ts:491-497 | an insert puts the record at the counter's id, bumps the counter by one, keeps every other row, and keeps the keys dense |
| `Tables.AppendKeyed` | server/storage.ts:491-497 | inserting a record whose own id is the counter keeps every row stored under its own id |
| `Tables.Replace` | server/storage.ts:524-531 | `set(id, …)` on an existing id changes only that row and leaves the counter |
| `Tables.ReplaceKeyed` | server/storage.ts:524-531 | replacing a row by one with the same id keeps every row stored under its own id |
| `Tables.RowsBetweenDense` | server/storage.ts:499-501 | the listing of a run of present keys has one entry per key, in key order |
| `Tables.RowsOfDense` | server/storage.ts:499-501 | with dense keys the listing has counter − 1 rows, row i is id i + 1, and every stored row is in it |
| `Tables.RowIdsIncrease` | server/storage.ts:499-501 | the listing's ids are strictly increasing |
| `Tables.Filter` | server/storage.ts:503-505 | a filtered listing holds only kept rows of the input, holds every kept row, and is no longer than the input |
| `Tables.FilterAppend` | server/storage.ts:503-505 | filtering a concatenation filters each part in place |
| `Tables.FilterKeepsOrder` | server/storage.ts:503-505 | filtering a listing whose ids strictly increase gives a listing whose ids strictly increase |
| `Tables.FilterRowsIncrease` | server/storage.ts:503-505 | a scan of a table whose keys are dense lists each matching row once, in increasing id order |
| `Tables.Find` | server/storage.ts:485-489 | `find` answers none exactly when no row matches, otherwise the first matching row |
| `Storage.NewStore` | server/storage.ts:99-129 | the constructor's store satisfies the invariant and holds only the admin user with id 1; the user counter is 2 and every other table is empty |
| `Storage.CreateUser` | server/storage.ts:491-497 | the new user has the counter's id, the input fields and the current time; it is added as the next row; nothing else changes; the invariant is kept and the id is fresh |
| `Storage.CreatePatient` | server/storage.ts:516-522 | as for users, on the patient table |
| `Storage.CreateService` | server/storage.ts:550-555 | as for users, with no timestamp |
| `Storage.CreateInventoryItem` | server/storage.ts:575-580 | as for users, with no timestamp |
| `Storage.CreateAppointment` | server/storage.ts:629-635 | as for users; an appointment created without a status keeps none |
| `Storage.CreateTreatmentPlan` | server/storage.ts:656-662 | as for users, on the plan table |
| `Storage.CreateFinancialTransaction` | server/storage.ts:687-692 | as for users, with no timestamp |
| `Storage.CreateWhatsappMessage` | server/storage.ts:717-723 | as for users, stamped `sentAt` |
| `Storage.Decrement` | server/storage.ts:704-705 | the item keeps its id and every other field; a numeric quantity drops by exactly the amount; a missing quantity stays not-a-number |
| `Storage.CreateInventoryConsumption` | server/storage.ts:695-709 | the record is stored stamped `usedAt`; the named item, when it exists, has its quantity decremented and no other item changes; an unknown item id leaves the items untouched |
| `Storage.ConsumeAllSubtractsTotal` | server/storage.ts:695-709 | a run of consumptions of one item lowers its quantity by the sum of the consumed quantities and adds one record each |
| `Storage.ConsumeAll` | server/storage.ts:695-709 | a run of consumptions adds one record each, never creates an item, leaves the item counter and every other table alone, and keeps the invariant |
| `Storage.UpdatePatient` | server/storage.ts:524-531 | an unknown id is "not found" and changes nothing; otherwise the merged record is stored and returned, with the same id and `createdAt`, and no other row changes |
| `Storage.UpdateService` | server/storage.ts:557-564 | as for patients, on services |
| `Storage.UpdateInventoryItem` | server/storage.ts:582-589 | as for patients, on inventory items |
| `Storage.UpdateAppointment` | server/storage.ts:637-644 | as for patients, on appointments |
| `Storage.UpdateTreatmentPlan` | server/storage.ts:664-671 | as for patients, on treatment plans |
| `Storage.CreateThenConfirm` | server/storage.ts:629-644 | an appointment created without a status reads as pending; after a status-only patch the store holds it confirmed with every other field as created |
| `Storage.UserByUsername` | server/storage.ts:485-489 | none exactly when no user has the name, otherwise the first such user in listing order |
| `Storage.UsersByRole` | server/storage.ts:503-505 | exactly the listed users with that role. Under the invariant, each row appears once, in increasing id order. |
| `Storage.Lower` | server/storage.ts:534 | lower-casing maps A–Z to a–z and keeps every other character and the length |
| `Storage.IncludesAt` | server/storage.ts:535-537 | `includes` holds exactly when the needle occurs at some position of the haystack |
| `Storage.OccursAtShift` | server/storage.ts:535-537 | an occurrence at position i of the haystack's tail is an occurrence at position i + 1 of the whole haystack, and back |
| `Storage.SearchPatients` | server/storage.ts:533-539 | exactly the listed patients whose lower-cased name contains the lower-cased query or whose phone number contains the query as given. Under the invariant, each row appears once, in increasing id order. |
| `Storage.EmptyQueryMatchesAll` | server/storage.ts:533-539 | the empty query matches every patient, which is why the route refuses it |
| `Storage.LowStockItems` | server/storage.ts:591-594 | exactly the listed items whose quantity and minimum are both numbers with quantity ≤ minimum. Under the invariant, each row appears once, in increasing id order. |
| `Storage.AppointmentsByDate` | server/storage.ts:605-617 | exactly the listed appointments that start on the given calendar day. Under the invariant, each row appears once, in increasing id order. |
| `Storage.AppointmentsByDoctor` | server/storage.ts:619-622 | exactly the listed appointments of that doctor. Under the invariant, each row appears once, in increasing id order. |
| `Storage.AppointmentsByPatient` | server/storage.ts:624-627 | exactly the listed appointments of that patient. Under the invariant, each row appears once, in increasing id order. |
| `Storage.TreatmentPlansByPatient` | server/storage.ts:651-654 | exactly the listed plans of that patient. Under the invariant, each row appears once, in increasing id order. |
| `Storage.FinancialTransactionsByPatient` | server/storage.ts:682-685 | exactly the listed transactions whose nullable patient id is that patient. Under the invariant, each row appears once, in increasing id order. |
| `Storage.InventoryConsumptionByPatient` | server/storage.ts:711-714 | exactly the listed consumptions whose nullable patient id is that patient. Under the invariant, each row appears once, in increasing id order. |
| `Storage.WhatsappMessagesByPatient` | server/storage.ts:729-732 | exactly the listed messages whose nullable patient id is that patient. Under the invariant, each row appears once, in increasing id order. |
| `Analytics.Zeros` | server/storage.ts:739-743 | the twelve buckets start at zero |
| `Analytics.BumpByMonth` | server/storage.ts:756-759 | one entry adds its weight to the bucket of its own calendar month and to no other |
| `Analytics.Accumulate` | server/storage.ts:748-760 | after the loop, every one of the twelve buckets holds its start value plus the weight of the entries dated in that bucket's month |
| `Analytics.SumBump` | server/storage.ts:758 | adding v to one bucket adds v to the sum of the buckets |
| `Analytics.SumZeros` | server/storage.ts:742 | zero buckets sum to zero |
| `Analytics.SumOfBump` | server/storage.ts:756-759 | one turn of the loop adds the entry's weight to the buckets' sum exactly when its month difference is 0 to 11, and nothing otherwise |
| `Analytics.AccumulateTotal` | server/storage.ts:748-760 | the buckets together gain exactly the weight of the entries dated within the trailing twelve months |
| `Analytics.BucketTotalIsSum` | server/storage.ts:735-763 | the labelled series' total is the sum of its amounts |
| `Analytics.IncomeEntries` | server/storage.ts:745-746 | every entry is the date and amount of some income transaction, and there are no more entries than transactions |
| `Analytics.GrowthEntries` | server/storage.ts:775 | one entry per patient, in order, dated at its creation and weighing one |
| `Analytics.IncomeEntriesWeights` | server/storage.ts:745-746 | keeping income transactions only gives, per month and over the window, the income of that month or window |
| `Analytics.MonthlyRevenue` | server/storage.ts:735-763 | twelve buckets, oldest first; bucket k is month k − 11 from now and holds the income booked in that calendar month |
| `Analytics.MonthlyRevenueTotal` | server/storage.ts:735-763 | the twelve revenue buckets together hold all income dated in the trailing twelve months |
| `Analytics.GrowthEntriesWeights` | server/storage.ts:775-789 | every patient weighs one, so per month and over the window the weight is the number of patients created then |
| `Analytics.PatientGrowth` | server/storage.ts:765-792 | twelve buckets, oldest first; bucket k holds the number of patients created in its calendar month |
| `Analytics.PatientGrowthTotal` | server/storage.ts:765-792 | the buckets together count the patients created in the trailing twelve months |
| `Analytics.WindowEnds` | server/storage.ts:754-758 | difference 11 lands in the first bucket and difference 0 in the last |
| `Analytics.IndexOfStatus` | server/storage.ts:804 | `findIndex` gives the first bucket with the appointment's status, or −1 exactly when none has it |
| `Analytics.Tally` | server/storage.ts:803-808 | the loop keeps each bucket's status in place and raises a count by at most the number of appointments |
| `Analytics.TallyCounts` | server/storage.ts:795-807 | from buckets in the order confirmed, pending, cancelled, each bucket gains the number of appointments with its status, and the order is kept |
| `Analytics.AppointmentStatusStats` | server/storage.ts:794-811 | three buckets, confirmed, pending and cancelled in that order, each counting the appointments with that stored status |
| `Analytics.CountsPartition` | server/storage.ts:794-811 | the three status counts plus the count of appointments without a status is the number of appointments |
| `Analytics.StatusStatsTotal` | server/storage.ts:794-811 | the three buckets together count every appointment that has a status; one without a status falls in no bucket |
| `Analytics.UpsertNames` | server/storage.ts:821-822 | `set` on a Map keeps the key order and appends a new name at the end |
| `Analytics.UpsertQuantity` | server/storage.ts:821-822 | `set(name, current + q)` adds q to that name's total and to no other |
| `Analytics.UpsertDistinct` | server/storage.ts:821-822 | the name-keyed totals never hold a name twice |
| `Analytics.Upsert` | server/storage.ts:821-822 | the names already present keep their positions; at most one entry is added, and an added entry is the new name with quantity q, at the end |
| `Analytics.Group` | server/storage.ts:817-823 | names already present keep their positions, and each consumption adds at most one name |
| `Analytics.GroupSpec` | server/storage.ts:817-823 | the loop keeps names distinct; it adds to each name the consumed quantities of the existing items with that name; a name is present exactly when it was present or some consumption resolves to it |
| `Analytics.InventoryConsumptionStats` | server/storage.ts:813-827 | one entry per item name, no name twice; each name's quantity is the total consumed under it; a name appears exactly when some consumption resolves to an existing item of that name |
| `Lookups.MemoizeHits` | server/routes.ts:253-274 | the hits-only memo loop keeps every cached entry equal to the table's; it caches exactly the resolving keys and fetches every key it meets |
| `Lookups.ResolveHits` | server/routes.ts:253-274 | from an empty memo, the cached entries are the resolving keys; every key is fetched; a key is fetched twice only when it does not resolve |
| `Lookups.MissFetchedAgain` | server/routes.ts:254-259 | a key that does not resolve is fetched and not cached, so the memo after it is the old one with one more fetch |
| `Lookups.MissRefetched` | server/routes.ts:254-259 | the same unresolvable id appearing twice is fetched twice |
| `Lookups.MemoizeAll` | server/routes.ts:253-274 | a memo that caches misses as well keeps every entry equal to the table's lookup and holds every key it met |
| `Lookups.ResolveOnce` | server/routes.ts:253-274 | the corrected memo: its hits are the same as the code as written; every key is fetched; no key is fetched twice |
| `Auth.Authenticate` | server/routes.ts:42-47 | 401 exactly when the session's user id is missing or zero, otherwise proceed |
| `Auth.CheckRole` | server/routes.ts:50-67 | 401 for no usable session id or an id the store does not hold; 403 for a stored user whose stored role is not allowed; proceed exactly for a stored user whose role is allowed |
| `Auth.CheckRoleIgnoresSessionRole` | server/routes.ts:55-61 | the role saved in the session plays no part: the gate reads the stored user's role |
| `Auth.AccessOf` | server/routes.ts:126-589 | each role-gated endpoint allows a non-empty proper subset of the four roles, and the only one that excludes managers is recording consumption (doctors and nurses) |
| `Auth.Admit` | server/routes.ts:42-67 | 401 exactly without a usable session, or for a role-gated endpoint when the store does not hold the user; 403 exactly for a stored user whose role is not allowed; an ungated endpoint proceeds exactly with a usable session, a gated one exactly for a stored user with an allowed role |
| `Auth.AuthenticateThenCheckRole` | server/routes.ts:126 | running `authenticate` before `checkRole` decides exactly as `checkRole` alone |
| `Auth.AdmitAnswers` | server/routes.ts:42-67 | every gate answer is proceed, 401 or 403, and 401 exactly when there is no usable session |
| `Auth.ConsumptionAccess` | server/routes.ts:422 | recording consumption is admitted exactly for a stored doctor or nurse |
| `Auth.ManagerOrSecretaryAccess` | server/routes.ts:384-548 | inventory writes, finances and WhatsApp are admitted exactly for a stored manager or secretary |
| `Auth.ManagerOnlyAccess` | server/routes.ts:126-359 | listing users, adding users and adding services are admitted exactly for a stored manager |
| `Auth.TreatmentPlanAccess` | server/routes.ts:450-464 | creating and patching treatment plans are admitted exactly for a stored manager or doctor |
| `Auth.SessionOnlyAccess` | server/routes.ts:138-589 | every endpoint without a role list (the doctor list, every patient and appointment endpoint including their POSTs and PATCHes, the service and inventory lists, the low-stock list, a patient's plans, the dashboard) is admitted exactly for a session with a user id |
| `Auth.AnalyticsAccess` | server/routes.ts:569-587 | the four analytics reports are admitted exactly for a stored manager; any other stored user gets 403 |
| `Auth.DashboardAccess` | server/routes.ts:589 | the dashboard needs only a session |
| `Auth.Login` | server/routes.ts:70-96 | an empty username or password is a 400; 401 exactly when the first user with that name is missing or has another password; when the first user with that name has that password, the session gets that user's id and role and the reply is its public view; a failure leaves the session as it was |
| `Auth.LoginMatchesCredentials` | server/routes.ts:70-96 | with unique usernames, login succeeds exactly when some stored user has both the given name and the given password |
| `Auth.AdminLogin` | server/storage.ts:121-128 | on a new store, `admin`/`admin123` logs in as user 1, a manager |
| `Auth.CurrentUser` | server/routes.ts:107-123 | 401 exactly without a usable session id; 404 exactly when the store does not hold that user; otherwise, and always when it does, that user's public view |
| `Routes.PatchPatient` | server/routes.ts:213-236 | gate refusals pass through; an unparsable id is a 400; 404 exactly when the id is unknown, and then the store is unchanged; otherwise the reply and store are the storage update's |
| `Routes.PatchAppointment` | server/routes.ts:329-351 | as for patients, on appointments |
| `Routes.PatchInventoryItem` | server/routes.ts:398-420 | as for patients, behind the manager-or-secretary gate |
| `Routes.PatchTreatmentPlan` | server/routes.ts:464-486 | as for patients, behind the manager-or-doctor gate |
| `Routes.GetPatient` | server/routes.ts:185-197 | 401 without a session, 400 for an unparsable id, 404 exactly for an unknown id; with a session and a stored id, the reply is that stored patient |
| `Routes.PatchThenGetPatient` | server/routes.ts:185-236 | after a PATCH of a known patient, a GET of that id returns the merged record |
| `Routes.PatchLeavesOtherPatients` | server/routes.ts:185-236 | a PATCH of one patient does not change what a GET of another answers |
| `Routes.SearchPatientsRoute` | server/routes.ts:176-183 | 401 without a session; a missing or empty query is a 400; with a session and a non-empty query the reply succeeds, and it is the storage search's listing: exactly the matching patients, each once, in id order |
| `Routes.PostAppointment` | server/routes.ts:312-327 | without a session the store is unchanged and the reply is 401; with one, the appointment is stored as the next row with the next id, stamped now, with `createdBy` set to the session user whatever the body says; no other table changes; the invariant is kept |
| `Routes.PostFinance` | server/routes.ts:504-519 | a refusal leaves the store unchanged and answers the gate's status; for a manager or secretary the transaction is stored as the next row with the next id, with `createdBy` set to the session user whatever the body says; no other table changes; the invariant is kept |
| `Routes.PostConsumption` | server/routes.ts:422-437 | only doctors and nurses; the record is stored as the next row with the next id, stamped now, and its `usedBy` is the session user whatever the body says; a known item has its quantity decremented, no other item changes and the item counter stays; an unknown item id leaves the items alone; no other table changes; the invariant is kept |
| `Routes.SendWhatsapp` | server/routes.ts:548-566 | only managers and secretaries; the message is stored as the next row with the next id, stamped now, and its `sentBy` is the session user; no other table changes |
| `Routes.KeysCover` | server/routes.ts:253-273 | the loop over the day's appointments looks up every appointment's patient and doctor id, and its service id when truthy |
| `Routes.FetchedKeyReadsTable` | server/routes.ts:277-286 | a fetched key reads back from the memo the table's row, or nothing when the table has none |
| `Routes.Enrich` | server/routes.ts:276-287 | the enriched appointment is the appointment itself; its patient is present exactly when stored, and is that row; its doctor is present exactly when stored, as that user's id and name; its service is present exactly when the id is truthy and stored, as that service's id and name |
| `Routes.EnrichIsFaithful` | server/routes.ts:276-287 | an enriched appointment carries its patient when stored, the doctor's id and name when stored (else null), and the service's id and name when the id is truthy and stored (else null) |
| `Routes.EnrichAll` | server/routes.ts:276-287 | the mapping keeps length and order and enriches each appointment faithfully |
| `Routes.TodayAppointments` | server/routes.ts:244-290 | the today list is the day's appointments in order, each on today's date, each enriched from the store as above |
| `Routes.MessagePatientKeys` | server/routes.ts:526-533 | the lookup loop fetches exactly the truthy patient ids of the messages |
| `Routes.WhatsappMessageList` | server/routes.ts:522-546 | every message in listing order; its patient is null exactly when the message names none; it is an empty object exactly when the id is stored nowhere; otherwise the patient's id, name and phone |
| `Routes.NewPatientsAreMonthCount` | server/routes.ts:595-601 | the dashboard's month filter over patients has as many entries as patients created this calendar month |
| `Routes.RevenueIsMonthIncome` | server/routes.ts:607-613 | summing the dashboard's filtered transactions gives the income booked this calendar month |
| `Routes.Dashboard` | server/routes.ts:589-621 | today's appointment count; new patients this month, equal to the last patient-growth bucket; the low-stock count; this month's income, equal to the last monthly-revenue bucket |

## Left out

- Seed data: the constructor's `initializeTestData` call adds demonstration rows. The model's new store holds only the admin user.
- Input validation by zod: handlers take typed inputs. The 400 answers of validation failures are modelled only for login (an empty username or password) and for unparsable ids. The generic 500 answer is not modelled.
- `parseInt` is modelled only as its outcome: an integer or `NaN` (`None`).
- Logout, session storage and the session cookie: a session is a value passed in and returned.
- The plain list endpoints (`GET /api/patients`, `/api/services` and so on): each only calls the storage operation that is modelled and answers with its result. The `/api/users` projections that drop the password are not modelled.
- The by-id list endpoints: appointments by doctor and by patient (server/routes.ts:292-310), a patient's treatment plans (440-448) and a patient's finances (494-502) each call the modelled storage scan, but their 400 answer for an id that `parseInt` turns into `NaN` is not modelled.
- The remaining POST handlers (users, patients, services, inventory items, treatment plans): each only calls the storage create that is modelled. The handlers that stamp the session user into the body are modelled: appointments and finances (`createdBy`), consumption (`usedBy`) and WhatsApp (`sentBy`).
- Success status codes: a reply is a body or an error status, so 200 and the creating POSTs' 201 are not told apart.
- Month labels: `toLocaleDateString('ar-EG', { month: 'short' })` is a locale formatter. A bucket's label is its calendar month `YearMonth`.
- Clock, time zone and daylight saving: the current instant is a parameter in local calendar terms. `setHours` is modelled as the first and last millisecond of the calendar day.
- Number coercion: amounts and quantities are integers. `Number(amount)` on a decimal string, `NaN` arithmetic and floating-point rounding are not modelled. An item quantity that is not a number is modelled as absent.
- JavaScript `null` and `undefined` are not told apart. So an omitted nullable key, which the JSON reply leaves out, and an explicit `null`, which it writes out, are the same `None`. Only today's list keeps the difference: it leaves out the `patient` key of an unresolved patient, while its other unresolved refs are `null`.
- Case mapping: `toLowerCase` is modelled for ASCII letters only.
- Concurrency and `await` interleaving: every handler is one atomic step.
- The client, the bundled `dist` copy and the database-backed store are not part of this model.
- Column defaults: the SQL schema's defaults (quantity 0, minimum quantity 5, progress 0, status `pending`) apply only in the database, and the in-memory store applies none of them.
- Status default: the in-memory store keeps an absent status absent, so the status report counts such an appointment in no bucket. `Schema.ColumnStatus` states the column default separately.
- `Auth.LoginMatchesCredentials`: with duplicate usernames the first user in listing order decides, as `Auth.Login` states; this lemma states the if-and-only-if only for stores whose usernames are unique.

## Findings

| source | as written | input that shows it | evidently intended | confidence | as-written member | corrected member |
|---|---|---|---|---|---|---|
| server/routes.ts:253-274 | the memo maps cache only found rows (`if (patient) map.set(...)`), and `has` is checked before fetching, so an id that resolves to nothing is fetched again every time it recurs | today's list with two appointments for patient id 7, where no patient 7 exists: `getPatient(7)` runs twice (same for the WhatsApp list, server/routes.ts:527-534) | each distinct id is looked up at most once, with the same replies | not executed | `Lookups.MissRefetched` | `Lookups.ResolveOnce` |
