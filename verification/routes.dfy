/**
 * Route handlers with decision logic of their own: the PATCH handlers'
 * 400 / 404 answers, patient lookup and search, the enriched lists of
 * today's appointments and of WhatsApp messages, and the dashboard summary.
 * A path id is what `parseInt` made of it: `None` stands for `NaN`.
 */
module Routes {
  import opened Wrappers
  import opened Time
  import opened Schema
  import opened Tables
  import opened Storage
  import opened Analytics
  import opened Auth
  import opened Lookups

  // ---------------------------------------------------------------- PATCH and GET by id

  /** `PATCH /api/patients/:id`: gate, then 400 for an unparsable id, 404 exactly when the store's update finds nothing. */
  function PatchPatient(s: Store, sess: Session, id: Option<int>, p: PatientPatch): (r: (Store, Reply<Patient>))
    ensures Admit(s, sess, PatchPatientEndpoint).Reject? ==> r == (s, Fail(Admit(s, sess, PatchPatientEndpoint).status))
    ensures Admit(s, sess, PatchPatientEndpoint) == Proceed && id.None? ==> r == (s, Fail(400))
    ensures Admit(s, sess, PatchPatientEndpoint) == Proceed && id.Some? ==>
      && (r.1 == Fail(404) <==> id.value !in s.patients.rows)
      && (r.1.Ok? <==> id.value in s.patients.rows)
      && (r.1.Ok? ==> (r.0, Some(r.1.body)) == UpdatePatient(s, id.value, p))
    ensures r.1.Fail? ==> r.0 == s
  {
    var gate := Admit(s, sess, PatchPatientEndpoint);
    if gate.Reject? then (s, Fail(gate.status))
    else if id.None? then (s, Fail(400))
    else match UpdatePatient(s, id.value, p)
      case (s1, None) => (s, Fail(404))
      case (s1, Some(patient)) => (s1, Ok(patient))
  }

  function PatchAppointment(s: Store, sess: Session, id: Option<int>, p: AppointmentPatch): (r: (Store, Reply<Appointment>))
    ensures Admit(s, sess, PatchAppointmentEndpoint).Reject? ==> r == (s, Fail(Admit(s, sess, PatchAppointmentEndpoint).status))
    ensures Admit(s, sess, PatchAppointmentEndpoint) == Proceed && id.None? ==> r == (s, Fail(400))
    ensures Admit(s, sess, PatchAppointmentEndpoint) == Proceed && id.Some? ==>
      && (r.1 == Fail(404) <==> id.value !in s.appointments.rows)
      && (r.1.Ok? <==> id.value in s.appointments.rows)
      && (r.1.Ok? ==> (r.0, Some(r.1.body)) == UpdateAppointment(s, id.value, p))
    ensures r.1.Fail? ==> r.0 == s
  {
    var gate := Admit(s, sess, PatchAppointmentEndpoint);
    if gate.Reject? then (s, Fail(gate.status))
    else if id.None? then (s, Fail(400))
    else match UpdateAppointment(s, id.value, p)
      case (s1, None) => (s, Fail(404))
      case (s1, Some(appointment)) => (s1, Ok(appointment))
  }

  function PatchInventoryItem(s: Store, sess: Session, id: Option<int>, p: InventoryItemPatch): (r: (Store, Reply<InventoryItem>))
    ensures Admit(s, sess, PatchInventoryItemEndpoint).Reject? ==> r == (s, Fail(Admit(s, sess, PatchInventoryItemEndpoint).status))
    ensures Admit(s, sess, PatchInventoryItemEndpoint) == Proceed && id.None? ==> r == (s, Fail(400))
    ensures Admit(s, sess, PatchInventoryItemEndpoint) == Proceed && id.Some? ==>
      && (r.1 == Fail(404) <==> id.value !in s.inventoryItems.rows)
      && (r.1.Ok? <==> id.value in s.inventoryItems.rows)
      && (r.1.Ok? ==> (r.0, Some(r.1.body)) == UpdateInventoryItem(s, id.value, p))
    ensures r.1.Fail? ==> r.0 == s
  {
    var gate := Admit(s, sess, PatchInventoryItemEndpoint);
    if gate.Reject? then (s, Fail(gate.status))
    else if id.None? then (s, Fail(400))
    else match UpdateInventoryItem(s, id.value, p)
      case (s1, None) => (s, Fail(404))
      case (s1, Some(item)) => (s1, Ok(item))
  }

  function PatchTreatmentPlan(s: Store, sess: Session, id: Option<int>, p: TreatmentPlanPatch): (r: (Store, Reply<TreatmentPlan>))
    ensures Admit(s, sess, PatchTreatmentPlanEndpoint).Reject? ==> r == (s, Fail(Admit(s, sess, PatchTreatmentPlanEndpoint).status))
    ensures Admit(s, sess, PatchTreatmentPlanEndpoint) == Proceed && id.None? ==> r == (s, Fail(400))
    ensures Admit(s, sess, PatchTreatmentPlanEndpoint) == Proceed && id.Some? ==>
      && (r.1 == Fail(404) <==> id.value !in s.treatmentPlans.rows)
      && (r.1.Ok? <==> id.value in s.treatmentPlans.rows)
      && (r.1.Ok? ==> (r.0, Some(r.1.body)) == UpdateTreatmentPlan(s, id.value, p))
    ensures r.1.Fail? ==> r.0 == s
  {
    var gate := Admit(s, sess, PatchTreatmentPlanEndpoint);
    if gate.Reject? then (s, Fail(gate.status))
    else if id.None? then (s, Fail(400))
    else match UpdateTreatmentPlan(s, id.value, p)
      case (s1, None) => (s, Fail(404))
      case (s1, Some(plan)) => (s1, Ok(plan))
  }

  /** `GET /api/patients/:id`. */
  function GetPatient(s: Store, sess: Session, id: Option<int>): (r: Reply<Patient>)
    ensures !Truthy(sess.userId) ==> r == Fail(401)
    ensures Truthy(sess.userId) && id.None? ==> r == Fail(400)
    ensures Truthy(sess.userId) && id.Some? ==>
      (r == Fail(404) <==> id.value !in s.patients.rows) && (r.Ok? ==> r.body == s.patients.rows[id.value])
    ensures Truthy(sess.userId) && id.Some? && id.value in s.patients.rows ==> r == Ok(s.patients.rows[id.value])
  {
    if Admit(s, sess, GetPatientEndpoint).Reject? then Fail(401)
    else if id.None? then Fail(400)
    else match Get(s.patients, id.value)
      case None => Fail(404)
      case Some(patient) => Ok(patient)
  }

  /** After a successful `PATCH /api/patients/:id`, the same session's `GET` of that id reads the merged record. */
  lemma PatchThenGetPatient(s: Store, sess: Session, id: int, p: PatientPatch)
    requires Truthy(sess.userId) && id in s.patients.rows
    ensures var before := s.patients.rows[id];
      GetPatient(PatchPatient(s, sess, Some(id), p).0, sess, Some(id))
        == Ok(Patient(before.id, MergePatient(before.data, p), before.createdAt))
  {
  }

  /** A PATCH of another patient leaves what `GET` answers for this one unchanged. */
  lemma PatchLeavesOtherPatients(s: Store, sess: Session, id: int, other: int, p: PatientPatch)
    requires id != other
    ensures GetPatient(PatchPatient(s, sess, Some(id), p).0, sess, Some(other)) == GetPatient(s, sess, Some(other))
  {
  }

  /** `GET /api/patients/search?q=`: a missing or empty query is a 400, never a match-all. */
  function SearchPatientsRoute(s: Store, sess: Session, q: Option<string>): (r: Reply<seq<Patient>>)
    ensures !Truthy(sess.userId) ==> r == Fail(401)
    ensures Truthy(sess.userId) ==> (r == Fail(400) <==> q.None? || q.value == "")
    ensures r.Ok? ==> (q.Some? && q.value != "" &&
      forall p :: p in r.body <==> p in Rows(s.patients) && MatchesQuery(p, q.value))
    ensures Truthy(sess.userId) && q.Some? && q.value != "" ==> r.Ok?
    ensures r.Ok? ==> r.body == SearchPatients(s, q.value)
  {
    if Admit(s, sess, SearchPatientsEndpoint).Reject? then Fail(401)
    else if q.None? || q.value == "" then Fail(400)
    else Ok(SearchPatients(s, q.value))
  }

  // ---------------------------------------------------------------- POST handlers that stamp the session user

  /** `POST /api/appointments`: any session; `createdBy` is the signed-in user whatever the body says. */
  function PostAppointment(s: Store, sess: Session, a: InsertAppointment, now: Instant): (r: (Store, Reply<Appointment>))
    ensures Admit(s, sess, AddAppointment).Reject? ==> r == (s, Fail(401))
    ensures Admit(s, sess, AddAppointment) == Proceed ==>
      && r.1.Ok?
      && r.1.body.data == a.(createdBy := sess.userId)
      && r.1.body.createdAt == now
      && AddedAsNext(s.appointments, r.0.appointments, r.1.body)
      && r.1.body.id == s.appointments.nextId
      && r.0.(appointments := s.appointments) == s
      && (Valid(s) ==> Valid(r.0))
  {
    var gate := Admit(s, sess, AddAppointment);
    if gate.Reject? then (s, Fail(gate.status))
    else
      var (s1, appointment) := CreateAppointment(s, a.(createdBy := sess.userId), now);
      (s1, Ok(appointment))
  }

  /** `POST /api/finances`: managers and secretaries only; `createdBy` is the signed-in user. */
  function PostFinance(s: Store, sess: Session, t: InsertFinancialTransaction): (r: (Store, Reply<FinancialTransaction>))
    ensures Admit(s, sess, AddFinance).Reject? ==> r == (s, Fail(Admit(s, sess, AddFinance).status))
    ensures Admit(s, sess, AddFinance) == Proceed ==>
      && r.1.Ok?
      && r.1.body.data == t.(createdBy := sess.userId)
      && AddedAsNext(s.financialTransactions, r.0.financialTransactions, r.1.body)
      && r.1.body.id == s.financialTransactions.nextId
      && r.0.(financialTransactions := s.financialTransactions) == s
      && (Valid(s) ==> Valid(r.0))
  {
    var gate := Admit(s, sess, AddFinance);
    if gate.Reject? then (s, Fail(gate.status))
    else
      var (s1, transaction) := CreateFinancialTransaction(s, t.(createdBy := sess.userId));
      (s1, Ok(transaction))
  }

  /** `POST /api/inventory/consumption`: doctors and nurses only; `usedBy` is the signed-in user whatever the body says. */
  function PostConsumption(s: Store, sess: Session, c: InsertInventoryConsumption, now: Instant): (r: (Store, Reply<InventoryConsumption>))
    ensures Admit(s, sess, RecordConsumption).Reject? ==> r == (s, Fail(Admit(s, sess, RecordConsumption).status))
    ensures Admit(s, sess, RecordConsumption) == Proceed ==>
      && r.1.Ok?
      && r.1.body.data == c.(usedBy := sess.userId)
      && r.1.body.usedAt == now
      && r.1.body.id == s.inventoryConsumption.nextId
      && AddedAsNext(s.inventoryConsumption, r.0.inventoryConsumption, r.1.body)
      && (c.itemId in s.inventoryItems.rows ==>
            && Get(r.0.inventoryItems, c.itemId) == Some(Decrement(s.inventoryItems.rows[c.itemId], c.quantity))
            && r.0.inventoryItems.nextId == s.inventoryItems.nextId
            && forall k :: k != c.itemId ==> Get(r.0.inventoryItems, k) == Get(s.inventoryItems, k))
      && (c.itemId !in s.inventoryItems.rows ==> r.0.inventoryItems == s.inventoryItems)
      && r.0.(inventoryConsumption := s.inventoryConsumption, inventoryItems := s.inventoryItems) == s
      && (Valid(s) ==> Valid(r.0))
  {
    var gate := Admit(s, sess, RecordConsumption);
    if gate.Reject? then (s, Fail(gate.status))
    else
      var (s1, consumption) := CreateInventoryConsumption(s, c.(usedBy := sess.userId), now);
      (s1, Ok(consumption))
  }

  /** `POST /api/whatsapp/send`: managers and secretaries only; the message is stored with `sentBy` the signed-in user. */
  function SendWhatsapp(s: Store, sess: Session, m: InsertWhatsappMessage, now: Instant): (r: (Store, Reply<WhatsappMessage>))
    ensures Admit(s, sess, SendWhatsappMessage).Reject? ==> r == (s, Fail(Admit(s, sess, SendWhatsappMessage).status))
    ensures Admit(s, sess, SendWhatsappMessage) == Proceed ==>
      && r.1.Ok?
      && r.1.body.data == m.(sentBy := sess.userId)
      && r.1.body.sentAt == now
      && r.1.body.id == s.whatsappMessages.nextId
      && AddedAsNext(s.whatsappMessages, r.0.whatsappMessages, r.1.body)
      && r.0.(whatsappMessages := s.whatsappMessages) == s
      && (Valid(s) ==> Valid(r.0))
  {
    var gate := Admit(s, sess, SendWhatsappMessage);
    if gate.Reject? then (s, Fail(gate.status))
    else
      var (s1, message) := CreateWhatsappMessage(s, m.(sentBy := sess.userId), now);
      (s1, Ok(message))
  }

  // ---------------------------------------------------------------- today's appointments

  datatype DoctorRef = DoctorRef(id: int, fullName: string)
  datatype ServiceRef = ServiceRef(id: int, name: string)

  /**
   * One enriched appointment: every field of the appointment, plus its
   * patient (`None`: the key is left out), its doctor (`None`: null) and its
   * service (`None`: null).
   */
  datatype TodayAppointment = TodayAppointment(
    appointment: Appointment, patient: Option<Patient>, doctor: Option<DoctorRef>, service: Option<ServiceRef>)

  /** The patient ids of the listed appointments, in order, repeats kept. */
  function PatientKeys(appts: seq<Appointment>): seq<int> {
    if |appts| == 0 then [] else [appts[0].data.patientId] + PatientKeys(appts[1..])
  }

  function DoctorKeys(appts: seq<Appointment>): seq<int> {
    if |appts| == 0 then [] else [appts[0].data.doctorId] + DoctorKeys(appts[1..])
  }

  /** Only a truthy `serviceId` is looked up. */
  function ServiceKeys(appts: seq<Appointment>): seq<int> {
    if |appts| == 0 then []
    else (if Truthy(appts[0].data.serviceId) then [appts[0].data.serviceId.value] else []) + ServiceKeys(appts[1..])
  }

  /** Every appointment's keys are among the keys fetched for the list. */
  lemma {:induction false} KeysCover(appts: seq<Appointment>, i: int)
    requires 0 <= i < |appts|
    ensures appts[i].data.patientId in PatientKeys(appts)
    ensures appts[i].data.doctorId in DoctorKeys(appts)
    ensures Truthy(appts[i].data.serviceId) ==> appts[i].data.serviceId.value in ServiceKeys(appts)
  {
    if i > 0 {
      KeysCover(appts[1..], i - 1);
      assert appts[1..][i - 1] == appts[i];
    }
  }

  /** A memoised lookup: a key that was fetched reads back the table's row, or nothing when the table has none. */
  function FindIn<T>(hits: map<int, T>, k: int): Option<T> {
    if k in hits then Some(hits[k]) else None
  }

  lemma FetchedKeyReadsTable<T>(table: map<int, T>, keys: seq<int>, k: int)
    requires k in keys
    ensures FindIn(HitsOf(table, keys), k) == (if k in table then Some(table[k]) else None)
  {
  }

  /** One appointment enriched from the three memo tables. */
  function Enrich(a: Appointment, patients: map<int, Patient>, doctors: map<int, User>, services: map<int, Service>): (r: TodayAppointment)
    ensures r.appointment == a
    ensures r.patient.Some? <==> a.data.patientId in patients
    ensures r.patient.Some? ==> r.patient.value == patients[a.data.patientId]
    ensures r.doctor.Some? <==> a.data.doctorId in doctors
    ensures r.doctor.Some? ==> r.doctor.value == DoctorRef(doctors[a.data.doctorId].id, doctors[a.data.doctorId].data.fullName)
    ensures r.service.Some? <==> (Truthy(a.data.serviceId) && a.data.serviceId.value in services)
    ensures r.service.Some? ==>
      r.service.value == ServiceRef(services[a.data.serviceId.value].id, services[a.data.serviceId.value].data.name)
  {
    TodayAppointment(
      a,
      FindIn(patients, a.data.patientId),
      match FindIn(doctors, a.data.doctorId)
        case Some(d) => Some(DoctorRef(d.id, d.data.fullName))
        case None => None,
      if !Truthy(a.data.serviceId) then None
      else match FindIn(services, a.data.serviceId.value)
        case Some(v) => Some(ServiceRef(v.id, v.data.name))
        case None => None)
  }

  /** What an enriched appointment says about the store, once its memo tables hold the store's rows. */
  ghost predicate EnrichedFrom(s: Store, a: Appointment, e: TodayAppointment) {
    && e.appointment == a
    && e.patient == Get(s.patients, a.data.patientId)
    && (e.doctor.None? <==> a.data.doctorId !in s.users.rows)
    && (e.doctor.Some? ==> e.doctor.value == DoctorRef(a.data.doctorId, s.users.rows[a.data.doctorId].data.fullName))
    && (e.service.None? <==> (!Truthy(a.data.serviceId) || a.data.serviceId.value !in s.services.rows))
    && (e.service.Some? ==>
          e.service.value == ServiceRef(a.data.serviceId.value, s.services.rows[a.data.serviceId.value].data.name))
  }

  lemma EnrichIsFaithful(s: Store, a: Appointment, pk: seq<int>, dk: seq<int>, sk: seq<int>)
    requires Valid(s)
    requires a.data.patientId in pk && a.data.doctorId in dk
    requires Truthy(a.data.serviceId) ==> a.data.serviceId.value in sk
    ensures EnrichedFrom(s, a, Enrich(a, HitsOf(s.patients.rows, pk), HitsOf(s.users.rows, dk), HitsOf(s.services.rows, sk)))
  {
    FetchedKeyReadsTable(s.patients.rows, pk, a.data.patientId);
    FetchedKeyReadsTable(s.users.rows, dk, a.data.doctorId);
    if Truthy(a.data.serviceId) {
      FetchedKeyReadsTable(s.services.rows, sk, a.data.serviceId.value);
    }
  }

  /**
   * `GET /api/appointments/today`: the day's appointments in listing order,
   * each enriched from the memoised lookups. The patient, doctor and service
   * loops are independent, so they are run one after the other.
   */
  function TodayAppointments(s: Store, now: Instant): (r: seq<TodayAppointment>)
    requires Valid(s)
    ensures |r| == |AppointmentsByDate(s, now)|
    ensures forall i :: 0 <= i < |r| ==> EnrichedFrom(s, AppointmentsByDate(s, now)[i], r[i])
    ensures forall i :: 0 <= i < |r| ==> SameDay(r[i].appointment.data.startTime, now)
  {
    var appts := AppointmentsByDate(s, now);
    var pk, dk, sk := PatientKeys(appts), DoctorKeys(appts), ServiceKeys(appts);
    var patients := Hits(ResolveOnce(s.patients.rows, pk).found);
    var doctors := Hits(ResolveOnce(s.users.rows, dk).found);
    var services := Hits(ResolveOnce(s.services.rows, sk).found);
    forall i | 0 <= i < |appts|
      ensures appts[i].data.patientId in pk && appts[i].data.doctorId in dk
      ensures Truthy(appts[i].data.serviceId) ==> appts[i].data.serviceId.value in sk
      ensures SameDay(appts[i].data.startTime, now)
    {
      KeysCover(appts, i);
      assert appts[i] in appts;
    }
    EnrichAll(s, appts, pk, dk, sk, patients, doctors, services)
  }

  /** The enrichment loop over `appts`, given memo tables that hold the store's rows for every fetched key. */
  function EnrichAll(s: Store, appts: seq<Appointment>, pk: seq<int>, dk: seq<int>, sk: seq<int>,
                     patients: map<int, Patient>, doctors: map<int, User>, services: map<int, Service>): (r: seq<TodayAppointment>)
    requires Valid(s)
    requires patients == HitsOf(s.patients.rows, pk) && doctors == HitsOf(s.users.rows, dk) && services == HitsOf(s.services.rows, sk)
    requires forall i :: 0 <= i < |appts| ==> appts[i].data.patientId in pk && appts[i].data.doctorId in dk
    requires forall i :: 0 <= i < |appts| && Truthy(appts[i].data.serviceId) ==> appts[i].data.serviceId.value in sk
    ensures |r| == |appts|
    ensures forall i :: 0 <= i < |r| ==> EnrichedFrom(s, appts[i], r[i])
  {
    if |appts| == 0 then []
    else
      EnrichIsFaithful(s, appts[0], pk, dk, sk);
      [Enrich(appts[0], patients, doctors, services)] + EnrichAll(s, appts[1..], pk, dk, sk, patients, doctors, services)
  }

  // ---------------------------------------------------------------- WhatsApp messages

  /** The `patient` of a listed message: null, an empty object for an unresolved id, or the contact fields. */
  datatype PatientContact = NullPatient | EmptyPatient | Contact(id: int, fullName: string, phoneNumber: string)

  datatype MessageView = MessageView(message: WhatsappMessage, patient: PatientContact)

  function MessagePatientKeys(ms: seq<WhatsappMessage>): (r: seq<int>)
    ensures forall k :: k in r <==> exists i :: 0 <= i < |ms| && Truthy(ms[i].data.patientId) && ms[i].data.patientId.value == k
  {
    if |ms| == 0 then []
    else (if Truthy(ms[0].data.patientId) then [ms[0].data.patientId.value] else []) + MessagePatientKeys(ms[1..])
  }

  /** `GET /api/whatsapp/messages`: every message in listing order, its patient null exactly when it names none. */
  function WhatsappMessageList(s: Store): (r: seq<MessageView>)
    ensures |r| == |Rows(s.whatsappMessages)|
    ensures forall i :: 0 <= i < |r| ==>
      var m := Rows(s.whatsappMessages)[i];
      && r[i].message == m
      && (r[i].patient == NullPatient <==> !Truthy(m.data.patientId))
      && (r[i].patient == EmptyPatient <==> Truthy(m.data.patientId) && m.data.patientId.value !in s.patients.rows)
      && (r[i].patient.Contact? ==>
            var p := s.patients.rows[m.data.patientId.value];
            r[i].patient == Contact(p.id, p.data.fullName, p.data.phoneNumber))
  {
    var ms := Rows(s.whatsappMessages);
    var patients := Hits(ResolveOnce(s.patients.rows, MessagePatientKeys(ms)).found);
    assert forall i :: 0 <= i < |ms| && Truthy(ms[i].data.patientId) ==> ms[i].data.patientId.value in MessagePatientKeys(ms);
    seq(|ms|, i requires 0 <= i < |ms| =>
      var m := ms[i];
      MessageView(m,
        if !Truthy(m.data.patientId) then NullPatient
        else match FindIn(patients, m.data.patientId.value)
          case Some(p) => Contact(p.id, p.data.fullName, p.data.phoneNumber)
          case None => EmptyPatient))
  }

  // ---------------------------------------------------------------- dashboard

  datatype DashboardSummary = DashboardSummary(
    appointmentsToday: int, newPatientsThisMonth: int, lowStockItems: int, monthlyRevenue: int)

  function AmountTotal(txs: seq<FinancialTransaction>): int {
    if |txs| == 0 then 0 else txs[0].data.amount + AmountTotal(txs[1..])
  }

  lemma {:induction false} NewPatientsAreMonthCount(ps: seq<Patient>, ym: YearMonth)
    ensures |Filter(ps, (p: Patient) => MonthOf(p.createdAt) == ym)| == PatientsOfMonth(ps, ym)
  {
    if |ps| > 0 {
      NewPatientsAreMonthCount(ps[1..], ym);
    }
  }

  lemma {:induction false} RevenueIsMonthIncome(txs: seq<FinancialTransaction>, ym: YearMonth)
    ensures AmountTotal(Filter(txs, (t: FinancialTransaction) => MonthOf(t.data.date) == ym && IsIncome(t)))
      == IncomeOfMonth(txs, ym)
  {
    if |txs| > 0 {
      RevenueIsMonthIncome(txs[1..], ym);
      var keep := (t: FinancialTransaction) => MonthOf(t.data.date) == ym && IsIncome(t);
      var head := if keep(txs[0]) then [txs[0]] else [];
      var rest := Filter(txs[1..], keep);
      assert Filter(txs, keep) == head + rest;
      if keep(txs[0]) {
        assert (head + rest)[0] == txs[0] && (head + rest)[1..] == rest;
        assert AmountTotal(head + rest) == txs[0].data.amount + AmountTotal(rest);
      } else {
        assert head + rest == rest;
      }
    }
  }

  /**
   * `GET /api/analytics/dashboard`: four independent scans. The month
   * figures are recomputed by calendar-month filters and agree with the
   * last bucket of the analytics series.
   */
  function Dashboard(s: Store, now: Instant): (r: DashboardSummary)
    ensures r.appointmentsToday == |AppointmentsByDate(s, now)|
    ensures r.newPatientsThisMonth == PatientGrowth(s, now)[11].total == PatientsOfMonth(Rows(s.patients), MonthOf(now))
    ensures r.lowStockItems == |LowStockItems(s)|
    ensures r.monthlyRevenue == MonthlyRevenue(s, now)[11].total
      == IncomeOfMonth(Rows(s.financialTransactions), MonthOf(now))
  {
    var ym := MonthOf(now);
    assert BucketMonth(now, 11) == ym;
    var newPatients := Filter(Rows(s.patients), (p: Patient) => MonthOf(p.createdAt) == ym);
    var income := Filter(Rows(s.financialTransactions), (t: FinancialTransaction) => MonthOf(t.data.date) == ym && IsIncome(t));
    NewPatientsAreMonthCount(Rows(s.patients), ym);
    RevenueIsMonthIncome(Rows(s.financialTransactions), ym);
    DashboardSummary(|AppointmentsByDate(s, now)|, |newPatients|, |LowStockItems(s)|, AmountTotal(income))
  }
}
