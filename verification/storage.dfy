/**
 * The in-memory entity store (`MemStorage`): nine keyed collections, each
 * with its own id counter starting at 1, and the create / get / list /
 * partial-update / scan operations over them. "Now" is a parameter.
 */
module Storage {
  import opened Wrappers
  import opened Time
  import opened Schema
  import opened Tables

  datatype Store = Store(
    users: Table<User>,
    patients: Table<Patient>,
    services: Table<Service>,
    inventoryItems: Table<InventoryItem>,
    appointments: Table<Appointment>,
    treatmentPlans: Table<TreatmentPlan>,
    financialTransactions: Table<FinancialTransaction>,
    inventoryConsumption: Table<InventoryConsumption>,
    whatsappMessages: Table<WhatsappMessage>)

  /** Every collection is dense (ids 1 up to its counter) and stores each record under its own id. */
  ghost predicate Valid(s: Store) {
    && WellFormed(s.users, (u: User) => u.id)
    && WellFormed(s.patients, (p: Patient) => p.id)
    && WellFormed(s.services, (v: Service) => v.id)
    && WellFormed(s.inventoryItems, (i: InventoryItem) => i.id)
    && WellFormed(s.appointments, (a: Appointment) => a.id)
    && WellFormed(s.treatmentPlans, (p: TreatmentPlan) => p.id)
    && WellFormed(s.financialTransactions, (t: FinancialTransaction) => t.id)
    && WellFormed(s.inventoryConsumption, (c: InventoryConsumption) => c.id)
    && WellFormed(s.whatsappMessages, (m: WhatsappMessage) => m.id)
  }

  const EmptyStore: Store := Store(Empty(), Empty(), Empty(), Empty(), Empty(), Empty(), Empty(), Empty(), Empty())

  /** The default administrator account the constructor creates. */
  const Admin := InsertUser("admin", "admin123", "System Administrator", Manager,
    Some("0123456789"), Some("admin@example.com"))

  /** The constructor, without the test fixtures: empty collections, counters at 1, then the admin user. */
  function NewStore(now: Instant): (s: Store)
    ensures Valid(s)
    ensures s.users.rows == map[1 := User(1, Admin, now)] && s.users.nextId == 2
    ensures s.(users := Empty()) == EmptyStore
  {
    CreateUser(EmptyStore, Admin, now).0
  }

  // ---------------------------------------------------------------- creation

  function CreateUser(s: Store, u: InsertUser, now: Instant): (r: (Store, User))
    ensures r.1.id == s.users.nextId && r.1.data == u && r.1.createdAt == now
    ensures AddedAsNext(s.users, r.0.users, r.1)
    ensures r.0.(users := s.users) == s
    ensures Valid(s) ==> Valid(r.0) && forall k :: k in s.users.rows ==> k < r.1.id
  {
    var user := User(s.users.nextId, u, now);
    (s.(users := Append(s.users, user)), user)
  }

  function CreatePatient(s: Store, p: InsertPatient, now: Instant): (r: (Store, Patient))
    ensures r.1.id == s.patients.nextId && r.1.data == p && r.1.createdAt == now
    ensures AddedAsNext(s.patients, r.0.patients, r.1)
    ensures r.0.(patients := s.patients) == s
    ensures Valid(s) ==> Valid(r.0) && forall k :: k in s.patients.rows ==> k < r.1.id
  {
    var patient := Patient(s.patients.nextId, p, now);
    (s.(patients := Append(s.patients, patient)), patient)
  }

  /** Services carry no server timestamp. */
  function CreateService(s: Store, v: InsertService): (r: (Store, Service))
    ensures r.1.id == s.services.nextId && r.1.data == v
    ensures AddedAsNext(s.services, r.0.services, r.1)
    ensures r.0.(services := s.services) == s
    ensures Valid(s) ==> Valid(r.0) && forall k :: k in s.services.rows ==> k < r.1.id
  {
    var service := Service(s.services.nextId, v);
    (s.(services := Append(s.services, service)), service)
  }

  /** Inventory items carry no server timestamp, and omitted defaulted fields stay absent. */
  function CreateInventoryItem(s: Store, i: InsertInventoryItem): (r: (Store, InventoryItem))
    ensures r.1.id == s.inventoryItems.nextId && r.1.data == i
    ensures AddedAsNext(s.inventoryItems, r.0.inventoryItems, r.1)
    ensures r.0.(inventoryItems := s.inventoryItems) == s
    ensures Valid(s) ==> Valid(r.0) && forall k :: k in s.inventoryItems.rows ==> k < r.1.id
  {
    var item := InventoryItem(s.inventoryItems.nextId, i);
    (s.(inventoryItems := Append(s.inventoryItems, item)), item)
  }

  /** An omitted status stays absent: the store does not apply the `pending` column default. */
  function CreateAppointment(s: Store, a: InsertAppointment, now: Instant): (r: (Store, Appointment))
    ensures r.1.id == s.appointments.nextId && r.1.data == a && r.1.createdAt == now
    ensures AddedAsNext(s.appointments, r.0.appointments, r.1)
    ensures r.0.(appointments := s.appointments) == s
    ensures Valid(s) ==> Valid(r.0) && forall k :: k in s.appointments.rows ==> k < r.1.id
  {
    var appointment := Appointment(s.appointments.nextId, a, now);
    (s.(appointments := Append(s.appointments, appointment)), appointment)
  }

  function CreateTreatmentPlan(s: Store, p: InsertTreatmentPlan, now: Instant): (r: (Store, TreatmentPlan))
    ensures r.1.id == s.treatmentPlans.nextId && r.1.data == p && r.1.createdAt == now
    ensures AddedAsNext(s.treatmentPlans, r.0.treatmentPlans, r.1)
    ensures r.0.(treatmentPlans := s.treatmentPlans) == s
    ensures Valid(s) ==> Valid(r.0) && forall k :: k in s.treatmentPlans.rows ==> k < r.1.id
  {
    var plan := TreatmentPlan(s.treatmentPlans.nextId, p, now);
    (s.(treatmentPlans := Append(s.treatmentPlans, plan)), plan)
  }

  /** Transactions carry no server timestamp; their `date` is the caller's. */
  function CreateFinancialTransaction(s: Store, t: InsertFinancialTransaction): (r: (Store, FinancialTransaction))
    ensures r.1.id == s.financialTransactions.nextId && r.1.data == t
    ensures AddedAsNext(s.financialTransactions, r.0.financialTransactions, r.1)
    ensures r.0.(financialTransactions := s.financialTransactions) == s
    ensures Valid(s) ==> Valid(r.0) && forall k :: k in s.financialTransactions.rows ==> k < r.1.id
  {
    var tx := FinancialTransaction(s.financialTransactions.nextId, t);
    (s.(financialTransactions := Append(s.financialTransactions, tx)), tx)
  }

  function CreateWhatsappMessage(s: Store, m: InsertWhatsappMessage, now: Instant): (r: (Store, WhatsappMessage))
    ensures r.1.id == s.whatsappMessages.nextId && r.1.data == m && r.1.sentAt == now
    ensures AddedAsNext(s.whatsappMessages, r.0.whatsappMessages, r.1)
    ensures r.0.(whatsappMessages := s.whatsappMessages) == s
    ensures Valid(s) ==> Valid(r.0) && forall k :: k in s.whatsappMessages.rows ==> k < r.1.id
  {
    var message := WhatsappMessage(s.whatsappMessages.nextId, m, now);
    (s.(whatsappMessages := Append(s.whatsappMessages, message)), message)
  }

  /** `item.quantity -= q`: a quantity that is not a number stays not a number. */
  function Decrement(item: InventoryItem, q: int): (r: InventoryItem)
    ensures r.id == item.id
    ensures r.data == item.data.(quantity := r.data.quantity)
    ensures item.data.quantity.Some? <==> r.data.quantity.Some?
    ensures item.data.quantity.Some? ==> r.data.quantity.value + q == item.data.quantity.value
  {
    match item.data.quantity
    case Some(n) => item.(data := item.data.(quantity := Some(n - q)))
    case None => item
  }

  /**
   * Records one use of an inventory item and, as a side effect, decrements
   * that item's quantity; an unknown `itemId` silently skips the decrement.
   */
  function CreateInventoryConsumption(s: Store, c: InsertInventoryConsumption, now: Instant): (r: (Store, InventoryConsumption))
    ensures r.1.id == s.inventoryConsumption.nextId && r.1.data == c && r.1.usedAt == now
    ensures AddedAsNext(s.inventoryConsumption, r.0.inventoryConsumption, r.1)
    ensures c.itemId !in s.inventoryItems.rows ==> r.0.inventoryItems == s.inventoryItems
    ensures c.itemId in s.inventoryItems.rows ==>
      && r.0.inventoryItems.nextId == s.inventoryItems.nextId
      && Get(r.0.inventoryItems, c.itemId) == Some(Decrement(s.inventoryItems.rows[c.itemId], c.quantity))
      && forall k :: k != c.itemId ==> Get(r.0.inventoryItems, k) == Get(s.inventoryItems, k)
    ensures r.0.(inventoryConsumption := s.inventoryConsumption, inventoryItems := s.inventoryItems) == s
    ensures Valid(s) ==> Valid(r.0) && forall k :: k in s.inventoryConsumption.rows ==> k < r.1.id
  {
    var consumption := InventoryConsumption(s.inventoryConsumption.nextId, c, now);
    var s1 := s.(inventoryConsumption := Append(s.inventoryConsumption, consumption));
    if c.itemId in s.inventoryItems.rows then
      var item := s.inventoryItems.rows[c.itemId];
      (s1.(inventoryItems := Replace(s.inventoryItems, c.itemId, Decrement(item, c.quantity))), consumption)
    else
      (s1, consumption)
  }

  /** Records the consumptions one after another, as successive requests would. */
  function ConsumeAll(s: Store, cs: seq<InsertInventoryConsumption>, now: Instant): (r: Store)
    ensures r.inventoryConsumption.nextId == s.inventoryConsumption.nextId + |cs|
    ensures r.inventoryItems.nextId == s.inventoryItems.nextId
    ensures forall k :: k !in s.inventoryItems.rows ==> k !in r.inventoryItems.rows
    ensures r.(inventoryConsumption := s.inventoryConsumption, inventoryItems := s.inventoryItems) == s
    ensures Valid(s) ==> Valid(r)
    decreases |cs|
  {
    if |cs| == 0 then s else ConsumeAll(CreateInventoryConsumption(s, cs[0], now).0, cs[1..], now)
  }

  function TotalQuantity(cs: seq<InsertInventoryConsumption>): int {
    if |cs| == 0 then 0 else cs[0].quantity + TotalQuantity(cs[1..])
  }

  /**
   * Successive consumptions of one item lose no update: starting from
   * quantity `q`, the item ends at `q` minus the sum consumed, and one
   * consumption record is added per call.
   */
  lemma {:induction false} ConsumeAllSubtractsTotal(s: Store, cs: seq<InsertInventoryConsumption>, now: Instant, id: int, q: int)
    requires id in s.inventoryItems.rows && s.inventoryItems.rows[id].data.quantity == Some(q)
    requires forall i :: 0 <= i < |cs| ==> cs[i].itemId == id
    ensures id in ConsumeAll(s, cs, now).inventoryItems.rows
    ensures ConsumeAll(s, cs, now).inventoryItems.rows[id].data.quantity == Some(q - TotalQuantity(cs))
    ensures ConsumeAll(s, cs, now).inventoryConsumption.nextId == s.inventoryConsumption.nextId + |cs|
    decreases |cs|
  {
    if |cs| > 0 {
      var s1 := CreateInventoryConsumption(s, cs[0], now).0;
      assert Get(s1.inventoryItems, id) == Some(Decrement(s.inventoryItems.rows[id], cs[0].quantity));
      ConsumeAllSubtractsTotal(s1, cs[1..], now, id, q - cs[0].quantity);
    }
  }

  // ---------------------------------------------------------------- partial update

  function UpdatePatient(s: Store, id: int, p: PatientPatch): (r: (Store, Option<Patient>))
    ensures id !in s.patients.rows ==> r == (s, None)
    ensures id in s.patients.rows ==>
      var before := s.patients.rows[id];
      && r.1 == Some(Patient(before.id, MergePatient(before.data, p), before.createdAt))
      && Get(r.0.patients, id) == r.1 && r.0.patients.nextId == s.patients.nextId
      && (forall k :: k != id ==> Get(r.0.patients, k) == Get(s.patients, k))
      && r.0.(patients := s.patients) == s
    ensures Valid(s) ==> Valid(r.0)
  {
    if id !in s.patients.rows then (s, None)
    else
      var before := s.patients.rows[id];
      var after := before.(data := MergePatient(before.data, p));
      (s.(patients := Replace(s.patients, id, after)), Some(after))
  }

  function UpdateService(s: Store, id: int, p: ServicePatch): (r: (Store, Option<Service>))
    ensures id !in s.services.rows ==> r == (s, None)
    ensures id in s.services.rows ==>
      var before := s.services.rows[id];
      && r.1 == Some(Service(before.id, MergeService(before.data, p)))
      && Get(r.0.services, id) == r.1 && r.0.services.nextId == s.services.nextId
      && (forall k :: k != id ==> Get(r.0.services, k) == Get(s.services, k))
      && r.0.(services := s.services) == s
    ensures Valid(s) ==> Valid(r.0)
  {
    if id !in s.services.rows then (s, None)
    else
      var before := s.services.rows[id];
      var after := before.(data := MergeService(before.data, p));
      (s.(services := Replace(s.services, id, after)), Some(after))
  }

  function UpdateInventoryItem(s: Store, id: int, p: InventoryItemPatch): (r: (Store, Option<InventoryItem>))
    ensures id !in s.inventoryItems.rows ==> r == (s, None)
    ensures id in s.inventoryItems.rows ==>
      var before := s.inventoryItems.rows[id];
      && r.1 == Some(InventoryItem(before.id, MergeInventoryItem(before.data, p)))
      && Get(r.0.inventoryItems, id) == r.1 && r.0.inventoryItems.nextId == s.inventoryItems.nextId
      && (forall k :: k != id ==> Get(r.0.inventoryItems, k) == Get(s.inventoryItems, k))
      && r.0.(inventoryItems := s.inventoryItems) == s
    ensures Valid(s) ==> Valid(r.0)
  {
    if id !in s.inventoryItems.rows then (s, None)
    else
      var before := s.inventoryItems.rows[id];
      var after := before.(data := MergeInventoryItem(before.data, p));
      (s.(inventoryItems := Replace(s.inventoryItems, id, after)), Some(after))
  }

  function UpdateAppointment(s: Store, id: int, p: AppointmentPatch): (r: (Store, Option<Appointment>))
    ensures id !in s.appointments.rows ==> r == (s, None)
    ensures id in s.appointments.rows ==>
      var before := s.appointments.rows[id];
      && r.1 == Some(Appointment(before.id, MergeAppointment(before.data, p), before.createdAt))
      && Get(r.0.appointments, id) == r.1 && r.0.appointments.nextId == s.appointments.nextId
      && (forall k :: k != id ==> Get(r.0.appointments, k) == Get(s.appointments, k))
      && r.0.(appointments := s.appointments) == s
    ensures Valid(s) ==> Valid(r.0)
  {
    if id !in s.appointments.rows then (s, None)
    else
      var before := s.appointments.rows[id];
      var after := before.(data := MergeAppointment(before.data, p));
      (s.(appointments := Replace(s.appointments, id, after)), Some(after))
  }

  function UpdateTreatmentPlan(s: Store, id: int, p: TreatmentPlanPatch): (r: (Store, Option<TreatmentPlan>))
    ensures id !in s.treatmentPlans.rows ==> r == (s, None)
    ensures id in s.treatmentPlans.rows ==>
      var before := s.treatmentPlans.rows[id];
      && r.1 == Some(TreatmentPlan(before.id, MergeTreatmentPlan(before.data, p), before.createdAt))
      && Get(r.0.treatmentPlans, id) == r.1 && r.0.treatmentPlans.nextId == s.treatmentPlans.nextId
      && (forall k :: k != id ==> Get(r.0.treatmentPlans, k) == Get(s.treatmentPlans, k))
      && r.0.(treatmentPlans := s.treatmentPlans) == s
    ensures Valid(s) ==> Valid(r.0)
  {
    if id !in s.treatmentPlans.rows then (s, None)
    else
      var before := s.treatmentPlans.rows[id];
      var after := before.(data := MergeTreatmentPlan(before.data, p));
      (s.(treatmentPlans := Replace(s.treatmentPlans, id, after)), Some(after))
  }

  /**
   * The end-to-end scenario: an appointment created without a status has
   * none in the store; after a status-only patch, a get returns that status
   * and every other field as created.
   */
  lemma CreateThenConfirm(s: Store, a: InsertAppointment, now: Instant)
    requires Valid(s) && a.status.None?
    ensures var (s1, created) := CreateAppointment(s, a, now);
      var (s2, updated) := UpdateAppointment(s1, created.id, EmptyAppointmentPatch.(status := Some(Confirmed)));
      && created.data.status.None? && ColumnStatus(created) == Pending
      && Get(s2.appointments, created.id) == Some(created.(data := a.(status := Some(Confirmed))))
  {
    var (s1, created) := CreateAppointment(s, a, now);
    StatusPatchChangesOnlyStatus(a, Confirmed);
  }

  // ---------------------------------------------------------------- scans

  /** `find(user => user.username === username)` over the listing. */
  function UserByUsername(s: Store, username: string): (r: Option<User>)
    ensures r.Some? ==> r.value in Rows(s.users) && r.value.data.username == username
    ensures r.None? <==> forall i :: 0 <= i < |Rows(s.users)| ==> Rows(s.users)[i].data.username != username
    ensures r.Some? ==> exists i :: (0 <= i < |Rows(s.users)| && Rows(s.users)[i] == r.value &&
      forall j :: 0 <= j < i ==> Rows(s.users)[j].data.username != username)
  {
    Find(Rows(s.users), (u: User) => u.data.username == username)
  }

  function UsersByRole(s: Store, role: Role): (r: seq<User>)
    ensures forall u :: u in r <==> u in Rows(s.users) && u.data.role == role
    ensures Valid(s) ==> forall i, j :: 0 <= i < j < |r| ==> r[i].id < r[j].id
  {
    var keep := (u: User) => u.data.role == role;
    FilterRowsIncrease(s.users, keep, (x: User) => x.id);
    Filter(Rows(s.users), keep)
  }

  /** ASCII `toLowerCase`; other characters are left as they are. */
  function Lower(s: string): (r: string)
    ensures |r| == |s|
    ensures forall i :: 0 <= i < |s| ==> r[i] == (if 'A' <= s[i] <= 'Z' then (s[i] as int + 32) as char else s[i])
  {
    if |s| == 0 then [] else [if 'A' <= s[0] <= 'Z' then (s[0] as int + 32) as char else s[0]] + Lower(s[1..])
  }

  /** `hay.includes(needle)`. */
  predicate Includes(hay: string, needle: string) {
    needle <= hay || (|hay| > 0 && Includes(hay[1..], needle))
  }

  predicate OccursAt(hay: string, needle: string, i: int) {
    0 <= i && i + |needle| <= |hay| && hay[i..i + |needle|] == needle
  }

  /** Dropping the first character moves every occurrence one place left. */
  lemma OccursAtShift(hay: string, needle: string, i: int)
    requires |hay| > 0 && 0 <= i
    ensures OccursAt(hay[1..], needle, i) <==> OccursAt(hay, needle, i + 1)
  {
    if i + 1 + |needle| <= |hay| {
      assert hay[1..][i..i + |needle|] == hay[i + 1..i + 1 + |needle|];
    }
  }

  /** `includes` finds the needle at some offset, and only then. */
  lemma {:induction false} IncludesAt(hay: string, needle: string)
    ensures Includes(hay, needle) <==> exists i :: OccursAt(hay, needle, i)
    decreases |hay|
  {
    if needle <= hay {
      assert OccursAt(hay, needle, 0);
    } else if |hay| > 0 {
      IncludesAt(hay[1..], needle);
      if Includes(hay[1..], needle) {
        var i :| OccursAt(hay[1..], needle, i);
        OccursAtShift(hay, needle, i);
      }
      if exists i :: OccursAt(hay, needle, i) {
        var i :| OccursAt(hay, needle, i);
        assert i != 0;
        OccursAtShift(hay, needle, i - 1);
      }
    }
  }

  predicate MatchesQuery(p: Patient, query: string) {
    Includes(Lower(p.data.fullName), Lower(query)) || Includes(p.data.phoneNumber, query)
  }

  /** Case-insensitive name match or exact-case phone match. */
  function SearchPatients(s: Store, query: string): (r: seq<Patient>)
    ensures forall p :: p in r <==> p in Rows(s.patients) && MatchesQuery(p, query)
    ensures Valid(s) ==> forall i, j :: 0 <= i < j < |r| ==> r[i].id < r[j].id
  {
    var keep := (p: Patient) => MatchesQuery(p, query);
    FilterRowsIncrease(s.patients, keep, (x: Patient) => x.id);
    Filter(Rows(s.patients), keep)
  }

  /** An empty query matches every patient, which is why the route rejects it. */
  lemma EmptyQueryMatchesAll(p: Patient)
    ensures MatchesQuery(p, "")
  {
  }

  /** `quantity <= minQuantity`; a field that is not a number makes the comparison false. */
  predicate IsLowStock(i: InventoryItem) {
    i.data.quantity.Some? && i.data.minQuantity.Some? && i.data.quantity.value <= i.data.minQuantity.value
  }

  function LowStockItems(s: Store): (r: seq<InventoryItem>)
    ensures forall i :: i in r <==> (i in Rows(s.inventoryItems) &&
      i.data.quantity.Some? && i.data.minQuantity.Some? && i.data.quantity.value <= i.data.minQuantity.value)
    ensures |r| <= |Rows(s.inventoryItems)|
    ensures Valid(s) ==> forall i, j :: 0 <= i < j < |r| ==> r[i].id < r[j].id
  {
    var keep := IsLowStock;
    FilterRowsIncrease(s.inventoryItems, keep, (x: InventoryItem) => x.id);
    Filter(Rows(s.inventoryItems), keep)
  }

  /** Appointments starting inside `[startOfDay, endOfDay]` of `date`, both ends included. */
  predicate StartsOn(a: Appointment, date: Instant) {
    NotAfter(StartOfDay(date), a.data.startTime) && NotAfter(a.data.startTime, EndOfDay(date))
  }

  function AppointmentsByDate(s: Store, date: Instant): (r: seq<Appointment>)
    ensures forall a :: a in r <==> a in Rows(s.appointments) && SameDay(a.data.startTime, date)
    ensures Valid(s) ==> forall i, j :: 0 <= i < j < |r| ==> r[i].id < r[j].id
  {
    forall a: Appointment ensures StartsOn(a, date) <==> SameDay(a.data.startTime, date) {
      DayWindowIsCalendarDay(a.data.startTime, date);
    }
    var keep := (a: Appointment) => StartsOn(a, date);
    FilterRowsIncrease(s.appointments, keep, (x: Appointment) => x.id);
    Filter(Rows(s.appointments), keep)
  }

  function AppointmentsByDoctor(s: Store, doctorId: int): (r: seq<Appointment>)
    ensures forall a :: a in r <==> a in Rows(s.appointments) && a.data.doctorId == doctorId
    ensures Valid(s) ==> forall i, j :: 0 <= i < j < |r| ==> r[i].id < r[j].id
  {
    var keep := (a: Appointment) => a.data.doctorId == doctorId;
    FilterRowsIncrease(s.appointments, keep, (x: Appointment) => x.id);
    Filter(Rows(s.appointments), keep)
  }

  function AppointmentsByPatient(s: Store, patientId: int): (r: seq<Appointment>)
    ensures forall a :: a in r <==> a in Rows(s.appointments) && a.data.patientId == patientId
    ensures Valid(s) ==> forall i, j :: 0 <= i < j < |r| ==> r[i].id < r[j].id
  {
    var keep := (a: Appointment) => a.data.patientId == patientId;
    FilterRowsIncrease(s.appointments, keep, (x: Appointment) => x.id);
    Filter(Rows(s.appointments), keep)
  }

  function TreatmentPlansByPatient(s: Store, patientId: int): (r: seq<TreatmentPlan>)
    ensures forall p :: p in r <==> p in Rows(s.treatmentPlans) && p.data.patientId == patientId
    ensures Valid(s) ==> forall i, j :: 0 <= i < j < |r| ==> r[i].id < r[j].id
  {
    var keep := (p: TreatmentPlan) => p.data.patientId == patientId;
    FilterRowsIncrease(s.treatmentPlans, keep, (x: TreatmentPlan) => x.id);
    Filter(Rows(s.treatmentPlans), keep)
  }

  /** A transaction without a patient never matches. */
  function FinancialTransactionsByPatient(s: Store, patientId: int): (r: seq<FinancialTransaction>)
    ensures forall t :: t in r <==> t in Rows(s.financialTransactions) && t.data.patientId == Some(patientId)
    ensures Valid(s) ==> forall i, j :: 0 <= i < j < |r| ==> r[i].id < r[j].id
  {
    var keep := (t: FinancialTransaction) => t.data.patientId == Some(patientId);
    FilterRowsIncrease(s.financialTransactions, keep, (x: FinancialTransaction) => x.id);
    Filter(Rows(s.financialTransactions), keep)
  }

  function InventoryConsumptionByPatient(s: Store, patientId: int): (r: seq<InventoryConsumption>)
    ensures forall c :: c in r <==> c in Rows(s.inventoryConsumption) && c.data.patientId == Some(patientId)
    ensures Valid(s) ==> forall i, j :: 0 <= i < j < |r| ==> r[i].id < r[j].id
  {
    var keep := (c: InventoryConsumption) => c.data.patientId == Some(patientId);
    FilterRowsIncrease(s.inventoryConsumption, keep, (x: InventoryConsumption) => x.id);
    Filter(Rows(s.inventoryConsumption), keep)
  }

  function WhatsappMessagesByPatient(s: Store, patientId: int): (r: seq<WhatsappMessage>)
    ensures forall m :: m in r <==> m in Rows(s.whatsappMessages) && m.data.patientId == Some(patientId)
    ensures Valid(s) ==> forall i, j :: 0 <= i < j < |r| ==> r[i].id < r[j].id
  {
    var keep := (m: WhatsappMessage) => m.data.patientId == Some(patientId);
    FilterRowsIncrease(s.whatsappMessages, keep, (x: WhatsappMessage) => x.id);
    Filter(Rows(s.whatsappMessages), keep)
  }
}
