/**
 * The entity shapes of the clinic: the role and appointment-status enums,
 * each table's insert shape (every column except the id and the
 * server-stamped timestamp), the stored records, and the partial shapes
 * that a PATCH merges over a stored record.
 *
 * A nullable or defaulted column is an `Option`: `None` is a field that is
 * absent (or null). The in-memory store never fills column defaults, so a
 * defaulted field that the caller omitted stays absent in the record.
 * Money and quantities are integers.
 */
module Schema {
  import opened Wrappers
  import opened Time

  datatype Role = Manager | Doctor | Secretary | Nurse

  datatype AppointmentStatus = Confirmed | Pending | Cancelled

  /** The status column's default, which the SQL schema declares and the in-memory store does not apply. */
  const DefaultStatus: AppointmentStatus := Pending

  // ---------------------------------------------------------------- insert shapes

  datatype InsertUser = InsertUser(
    username: string, password: string, fullName: string, role: Role,
    phoneNumber: Option<string>, email: Option<string>)

  datatype InsertPatient = InsertPatient(
    fullName: string, phoneNumber: string, email: Option<string>,
    address: Option<string>, birthDate: Option<Instant>, notes: Option<string>)

  datatype InsertService = InsertService(
    name: string, description: Option<string>, price: int, duration: int,
    category: Option<string>)

  /**
   * `quantity` and `minQuantity` have column defaults (0 and 5), so the
   * insert shape makes them optional. A stored `quantity` of `None` reads as
   * "not a number": it was omitted, or it was decremented while omitted.
   */
  datatype InsertInventoryItem = InsertInventoryItem(
    name: string, description: Option<string>, quantity: Option<int>,
    minQuantity: Option<int>, unit: string, price: Option<int>,
    category: Option<string>)

  datatype InsertAppointment = InsertAppointment(
    patientId: int, doctorId: int, serviceId: Option<int>,
    startTime: Instant, endTime: Instant, status: Option<AppointmentStatus>,
    notes: Option<string>, createdBy: Option<int>)

  datatype InsertTreatmentPlan = InsertTreatmentPlan(
    patientId: int, doctorId: int, title: string, description: Option<string>,
    totalCost: Option<int>, startDate: Option<Instant>, endDate: Option<Instant>,
    progress: Option<int>)

  /** `type` is free text; "income" and "expense" are conventions only. */
  datatype InsertFinancialTransaction = InsertFinancialTransaction(
    patientId: Option<int>, appointmentId: Option<int>, amount: int,
    kind: string, category: Option<string>, description: Option<string>,
    date: Instant, createdBy: Option<int>)

  datatype InsertInventoryConsumption = InsertInventoryConsumption(
    itemId: int, appointmentId: Option<int>, patientId: Option<int>,
    quantity: int, usedBy: Option<int>, notes: Option<string>)

  /** `messageType` and `status` are free text, not enums. */
  datatype InsertWhatsappMessage = InsertWhatsappMessage(
    patientId: Option<int>, appointmentId: Option<int>, messageType: string,
    message: string, status: string, sentBy: Option<int>)

  // ---------------------------------------------------------------- stored records

  datatype User = User(id: int, data: InsertUser, createdAt: Instant)
  datatype Patient = Patient(id: int, data: InsertPatient, createdAt: Instant)
  datatype Service = Service(id: int, data: InsertService)
  datatype InventoryItem = InventoryItem(id: int, data: InsertInventoryItem)
  datatype Appointment = Appointment(id: int, data: InsertAppointment, createdAt: Instant)
  datatype TreatmentPlan = TreatmentPlan(id: int, data: InsertTreatmentPlan, createdAt: Instant)
  datatype FinancialTransaction = FinancialTransaction(id: int, data: InsertFinancialTransaction)
  datatype InventoryConsumption = InventoryConsumption(id: int, data: InsertInventoryConsumption, usedAt: Instant)
  datatype WhatsappMessage = WhatsappMessage(id: int, data: InsertWhatsappMessage, sentAt: Instant)

  /** The status an appointment would carry in the SQL table, where the column default applies. */
  function ColumnStatus(a: Appointment): (r: AppointmentStatus)
    ensures a.data.status.None? ==> r == Pending
    ensures a.data.status.Some? ==> r == a.data.status.value
  {
    a.data.status.GetOr(DefaultStatus)
  }

  // ---------------------------------------------------------------- partial shapes

  /**
   * One field of a shallow merge `{...record, ...patch}`: a field the patch
   * carries replaces the old value, a field it leaves out keeps it.
   */
  function Pick<T>(change: Option<T>, current: T): T {
    if change.Some? then change.value else current
  }

  /** `p` then `q` as one patch: `{...{...p}, ...q}` keeps `q`'s fields and fills in `p`'s. */
  function Later<T>(p: Option<T>, q: Option<T>): Option<T> {
    if q.Some? then q else p
  }

  lemma PickLater<T>(p: Option<T>, q: Option<T>, x: T)
    ensures Pick(q, Pick(p, x)) == Pick(Later(p, q), x)
  {
  }

  datatype PatientPatch = PatientPatch(
    fullName: Option<string>, phoneNumber: Option<string>,
    email: Option<Option<string>>, address: Option<Option<string>>,
    birthDate: Option<Option<Instant>>, notes: Option<Option<string>>)

  datatype ServicePatch = ServicePatch(
    name: Option<string>, description: Option<Option<string>>,
    price: Option<int>, duration: Option<int>, category: Option<Option<string>>)

  datatype InventoryItemPatch = InventoryItemPatch(
    name: Option<string>, description: Option<Option<string>>,
    quantity: Option<int>, minQuantity: Option<int>, unit: Option<string>,
    price: Option<Option<int>>, category: Option<Option<string>>)

  datatype AppointmentPatch = AppointmentPatch(
    patientId: Option<int>, doctorId: Option<int>, serviceId: Option<Option<int>>,
    startTime: Option<Instant>, endTime: Option<Instant>,
    status: Option<AppointmentStatus>, notes: Option<Option<string>>,
    createdBy: Option<Option<int>>)

  datatype TreatmentPlanPatch = TreatmentPlanPatch(
    patientId: Option<int>, doctorId: Option<int>, title: Option<string>,
    description: Option<Option<string>>, totalCost: Option<Option<int>>,
    startDate: Option<Option<Instant>>, endDate: Option<Option<Instant>>,
    progress: Option<Option<int>>)

  /** A present non-defaulted field in a patch: set it; a defaulted field is set to `Some`. */
  function PickSome<T>(change: Option<T>, current: Option<T>): Option<T> {
    if change.Some? then Some(change.value) else current
  }

  function MergePatient(d: InsertPatient, p: PatientPatch): InsertPatient {
    InsertPatient(
      Pick(p.fullName, d.fullName), Pick(p.phoneNumber, d.phoneNumber),
      Pick(p.email, d.email), Pick(p.address, d.address),
      Pick(p.birthDate, d.birthDate), Pick(p.notes, d.notes))
  }

  function MergeService(d: InsertService, p: ServicePatch): InsertService {
    InsertService(
      Pick(p.name, d.name), Pick(p.description, d.description),
      Pick(p.price, d.price), Pick(p.duration, d.duration),
      Pick(p.category, d.category))
  }

  function MergeInventoryItem(d: InsertInventoryItem, p: InventoryItemPatch): InsertInventoryItem {
    InsertInventoryItem(
      Pick(p.name, d.name), Pick(p.description, d.description),
      PickSome(p.quantity, d.quantity), PickSome(p.minQuantity, d.minQuantity),
      Pick(p.unit, d.unit), Pick(p.price, d.price), Pick(p.category, d.category))
  }

  function MergeAppointment(d: InsertAppointment, p: AppointmentPatch): InsertAppointment {
    InsertAppointment(
      Pick(p.patientId, d.patientId), Pick(p.doctorId, d.doctorId),
      Pick(p.serviceId, d.serviceId), Pick(p.startTime, d.startTime),
      Pick(p.endTime, d.endTime), PickSome(p.status, d.status),
      Pick(p.notes, d.notes), Pick(p.createdBy, d.createdBy))
  }

  function MergeTreatmentPlan(d: InsertTreatmentPlan, p: TreatmentPlanPatch): InsertTreatmentPlan {
    InsertTreatmentPlan(
      Pick(p.patientId, d.patientId), Pick(p.doctorId, d.doctorId),
      Pick(p.title, d.title), Pick(p.description, d.description),
      Pick(p.totalCost, d.totalCost), Pick(p.startDate, d.startDate),
      Pick(p.endDate, d.endDate), Pick(p.progress, d.progress))
  }

  // ---------------------------------------------------------------- merge laws

  const EmptyPatientPatch := PatientPatch(None, None, None, None, None, None)
  const EmptyAppointmentPatch := AppointmentPatch(None, None, None, None, None, None, None, None)

  /** The patch that carries every field of `d`. */
  function FullPatientPatch(d: InsertPatient): PatientPatch {
    PatientPatch(Some(d.fullName), Some(d.phoneNumber), Some(d.email),
      Some(d.address), Some(d.birthDate), Some(d.notes))
  }

  /** Applying `p` then `q` is applying their combination once. */
  function ThenPatient(p: PatientPatch, q: PatientPatch): PatientPatch {
    PatientPatch(Later(p.fullName, q.fullName), Later(p.phoneNumber, q.phoneNumber),
      Later(p.email, q.email), Later(p.address, q.address),
      Later(p.birthDate, q.birthDate), Later(p.notes, q.notes))
  }

  /** An empty patch changes nothing; a patch naming every field replaces the record's data. */
  lemma PatientMergeLaws(d: InsertPatient, e: InsertPatient)
    ensures MergePatient(d, EmptyPatientPatch) == d
    ensures MergePatient(d, FullPatientPatch(e)) == e
  {
  }

  /** Two successive shallow merges are one merge of the combined patch, and merging twice is merging once. */
  lemma PatientMergeCompose(d: InsertPatient, p: PatientPatch, q: PatientPatch)
    ensures MergePatient(MergePatient(d, p), q) == MergePatient(d, ThenPatient(p, q))
    ensures MergePatient(MergePatient(d, p), p) == MergePatient(d, p)
  {
  }

  /** A patch that sets only the status changes only the status. */
  lemma StatusPatchChangesOnlyStatus(d: InsertAppointment, st: AppointmentStatus)
    ensures MergeAppointment(d, EmptyAppointmentPatch.(status := Some(st))) == d.(status := Some(st))
  {
  }
}
