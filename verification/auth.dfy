/**
 * The session and role gate of the HTTP layer: the `authenticate` and
 * `checkRole` middleware, each endpoint's allow-list, and the login and
 * "who am I" handlers. A session is abstract: the `userId` and `userRole`
 * it carries, if any.
 */
module Auth {
  import opened Wrappers
  import opened Time
  import opened Schema
  import opened Tables
  import opened Storage

  datatype Session = Session(userId: Option<int>, userRole: Option<Role>)

  const NoSession := Session(None, None)

  /** A handler's answer: a body (a success status, 200 or 201 for the creating POSTs) or a bare error status. */
  datatype Reply<T> = Ok(body: T) | Fail(status: int)

  /** A middleware's verdict: call the next handler, or answer with an error status. */
  datatype Decision = Proceed | Reject(status: int)

  /** JavaScript truthiness of an optional id: absent and 0 are both false. */
  predicate Truthy(id: Option<int>) {
    id.Some? && id.value != 0
  }

  /** `authenticate`: 401 unless the session carries a (truthy) user id. */
  function Authenticate(sess: Session): (r: Decision)
    ensures r == Reject(401) <==> !Truthy(sess.userId)
    ensures r == Proceed <==> Truthy(sess.userId)
  {
    if !Truthy(sess.userId) then Reject(401) else Proceed
  }

  /** The session names a user the store holds, and that stored user's role is one of `roles`. */
  ghost predicate SignedInWithRole(s: Store, sess: Session, roles: set<Role>) {
    Truthy(sess.userId) && sess.userId.value in s.users.rows && s.users.rows[sess.userId.value].data.role in roles
  }

  /** `checkRole(roles)`: 401 without a session or for an unknown user, 403 for a role not allowed. */
  function CheckRole(s: Store, sess: Session, roles: set<Role>): (r: Decision)
    ensures r == Reject(401) <==> !Truthy(sess.userId) || sess.userId.value !in s.users.rows
    ensures r == Reject(403) <==> (Truthy(sess.userId) && sess.userId.value in s.users.rows
      && s.users.rows[sess.userId.value].data.role !in roles)
    ensures r == Proceed <==> SignedInWithRole(s, sess, roles)
  {
    if !Truthy(sess.userId) then Reject(401)
    else match Get(s.users, sess.userId.value)
      case None => Reject(401)
      case Some(user) => if user.data.role in roles then Proceed else Reject(403)
  }

  /** The gate decides on the stored user's role; the role cached in the session plays no part. */
  lemma CheckRoleIgnoresSessionRole(s: Store, sess: Session, role: Option<Role>, roles: set<Role>)
    ensures CheckRole(s, sess.(userRole := role), roles) == CheckRole(s, sess, roles)
  {
  }

  /** Middleware in sequence: the first rejection answers. */
  function Chain(first: Decision, second: Decision): Decision {
    if first.Reject? then first else second
  }

  /** `authenticate` in front of `checkRole` changes nothing: `checkRole` makes the same 401 check first. */
  lemma AuthenticateThenCheckRole(s: Store, sess: Session, roles: set<Role>)
    ensures Chain(Authenticate(sess), CheckRole(s, sess, roles)) == CheckRole(s, sess, roles)
  {
  }

  datatype Endpoint =
    | ListUsers | ListDoctors | AddUser
    | ListPatients | SearchPatientsEndpoint | GetPatientEndpoint | AddPatient | PatchPatientEndpoint
    | ListAppointments | TodayAppointmentsEndpoint | DoctorAppointments | PatientAppointments
    | AddAppointment | PatchAppointmentEndpoint
    | ListServices | AddService
    | ListInventory | LowStock | AddInventoryItem | PatchInventoryItemEndpoint | RecordConsumption
    | PatientTreatmentPlans | AddTreatmentPlan | PatchTreatmentPlanEndpoint
    | ListFinances | PatientFinances | AddFinance
    | ListWhatsappMessages | SendWhatsappMessage
    | RevenueAnalytics | PatientGrowthAnalytics | AppointmentStatsAnalytics | InventoryConsumptionAnalytics
    | DashboardAnalytics

  /** Who may call an endpoint: any signed-in session, or stored users with one of the listed roles. */
  datatype Access = AnySession | RolesOnly(roles: set<Role>)

  /**
   * The allow-list of each route. Every role-restricted route admits some
   * role and refuses another, and the manager is admitted everywhere except
   * at recording consumption, which is for doctors and nurses.
   */
  function AccessOf(e: Endpoint): (r: Access)
    ensures r.RolesOnly? ==> r.roles != {} && r.roles < {Manager, Doctor, Secretary, Nurse}
    ensures r.RolesOnly? && Manager !in r.roles ==> e == RecordConsumption
  {
    match e
    case ListUsers | AddUser | AddService => RolesOnly({Manager})
    case AddInventoryItem | PatchInventoryItemEndpoint => RolesOnly({Manager, Secretary})
    case RecordConsumption => RolesOnly({Doctor, Nurse})
    case AddTreatmentPlan | PatchTreatmentPlanEndpoint => RolesOnly({Manager, Doctor})
    case ListFinances | PatientFinances | AddFinance => RolesOnly({Manager, Secretary})
    case ListWhatsappMessages | SendWhatsappMessage => RolesOnly({Manager, Secretary})
    case RevenueAnalytics | PatientGrowthAnalytics | AppointmentStatsAnalytics | InventoryConsumptionAnalytics =>
      RolesOnly({Manager})
    case _ => AnySession
  }

  /** The middleware chain in front of an endpoint's handler. */
  function Admit(s: Store, sess: Session, e: Endpoint): (r: Decision)
    ensures r == Reject(401) <==> !Truthy(sess.userId) || (AccessOf(e).RolesOnly? && sess.userId.value !in s.users.rows)
    ensures AccessOf(e).AnySession? ==> (r == Proceed <==> Truthy(sess.userId))
    ensures AccessOf(e).RolesOnly? ==> (r == Proceed <==> SignedInWithRole(s, sess, AccessOf(e).roles))
    ensures r == Reject(403) <==> (AccessOf(e).RolesOnly? && Truthy(sess.userId) && sess.userId.value in s.users.rows
      && s.users.rows[sess.userId.value].data.role !in AccessOf(e).roles)
  {
    match AccessOf(e)
    case AnySession => Authenticate(sess)
    case RolesOnly(roles) => Chain(Authenticate(sess), CheckRole(s, sess, roles))
  }

  /** Every refusal is 401 (no usable session) or 403 (role not allowed). */
  lemma AdmitAnswers(s: Store, sess: Session, e: Endpoint)
    ensures Admit(s, sess, e) in {Proceed, Reject(401), Reject(403)}
    ensures Admit(s, sess, e) == Reject(401) <==>
      !Truthy(sess.userId) || (AccessOf(e).RolesOnly? && sess.userId.value !in s.users.rows)
  {
  }

  /** Recording a consumption is for doctors and nurses only. */
  lemma ConsumptionAccess(s: Store, sess: Session)
    ensures Admit(s, sess, RecordConsumption) == Proceed <==> SignedInWithRole(s, sess, {Doctor, Nurse})
  {
  }

  /** Inventory writes, finances and WhatsApp are for managers and secretaries only. */
  lemma ManagerOrSecretaryAccess(s: Store, sess: Session, e: Endpoint)
    requires e in {AddInventoryItem, PatchInventoryItemEndpoint, ListFinances, PatientFinances, AddFinance,
      ListWhatsappMessages, SendWhatsappMessage}
    ensures Admit(s, sess, e) == Proceed <==> SignedInWithRole(s, sess, {Manager, Secretary})
  {
  }

  /** The four analytics series are for managers only. */
  lemma AnalyticsAccess(s: Store, sess: Session, e: Endpoint)
    requires e in {RevenueAnalytics, PatientGrowthAnalytics, AppointmentStatsAnalytics, InventoryConsumptionAnalytics}
    ensures Admit(s, sess, e) == Proceed <==> SignedInWithRole(s, sess, {Manager})
    ensures Admit(s, sess, e) == Reject(403) <==> (Truthy(sess.userId) && sess.userId.value in s.users.rows
      && s.users.rows[sess.userId.value].data.role != Manager)
  {
  }

  /** Listing and adding users, and adding services, are for managers only. */
  lemma ManagerOnlyAccess(s: Store, sess: Session, e: Endpoint)
    requires e in {ListUsers, AddUser, AddService}
    ensures AccessOf(e) == RolesOnly({Manager})
    ensures Admit(s, sess, e) == Proceed <==> SignedInWithRole(s, sess, {Manager})
  {
  }

  /** Creating and patching treatment plans is for managers and doctors only. */
  lemma TreatmentPlanAccess(s: Store, sess: Session, e: Endpoint)
    requires e in {AddTreatmentPlan, PatchTreatmentPlanEndpoint}
    ensures AccessOf(e) == RolesOnly({Manager, Doctor})
    ensures Admit(s, sess, e) == Proceed <==> SignedInWithRole(s, sess, {Manager, Doctor})
  {
  }

  /** Every other endpoint runs `authenticate` alone: any session with a user id gets through. */
  lemma SessionOnlyAccess(s: Store, sess: Session, e: Endpoint)
    requires e in {ListDoctors, ListPatients, SearchPatientsEndpoint, GetPatientEndpoint, AddPatient,
      PatchPatientEndpoint, ListAppointments, TodayAppointmentsEndpoint, DoctorAppointments, PatientAppointments,
      AddAppointment, PatchAppointmentEndpoint, ListServices, ListInventory, LowStock, PatientTreatmentPlans,
      DashboardAnalytics}
    ensures AccessOf(e).AnySession?
    ensures Admit(s, sess, e) == Proceed <==> Truthy(sess.userId)
  {
  }

  /** The dashboard admits any session with a user id, even one the store does not know. */
  lemma DashboardAccess(s: Store, sess: Session)
    ensures Admit(s, sess, DashboardAnalytics) == Proceed <==> Truthy(sess.userId)
  {
  }

  /** What login and "who am I" return about a user; never the password. */
  datatype UserView = UserView(id: int, username: string, fullName: string, role: Role)

  function View(u: User): UserView {
    UserView(u.id, u.data.username, u.data.fullName, u.data.role)
  }

  /**
   * `POST /api/auth/login`: 400 for an empty username or password, 401 when
   * the first user with that username is missing or has another password;
   * otherwise the session now names that user and their role.
   */
  function Login(s: Store, sess: Session, username: string, password: string): (r: (Session, Reply<UserView>))
    ensures username == "" || password == "" ==> r == (sess, Fail(400))
    ensures r.1.Fail? ==> r.0 == sess && r.1.status in {400, 401}
    ensures username != "" && password != "" ==>
      (r.1 == Fail(401) <==> (UserByUsername(s, username).None? || UserByUsername(s, username).value.data.password != password))
    ensures r.1.Ok? ==> exists u :: (u in Rows(s.users) && u.data.username == username && u.data.password == password
      && r.0 == Session(Some(u.id), Some(u.data.role)) && r.1.body == View(u))
    ensures (username != "" && password != "" && UserByUsername(s, username).Some?
               && UserByUsername(s, username).value.data.password == password) ==>
      var u := UserByUsername(s, username).value;
      r == (Session(Some(u.id), Some(u.data.role)), Ok(View(u)))
  {
    if username == "" || password == "" then (sess, Fail(400))
    else match UserByUsername(s, username)
      case None => (sess, Fail(401))
      case Some(user) =>
        if user.data.password != password then (sess, Fail(401))
        else (Session(Some(user.id), Some(user.data.role)), Ok(View(user)))
  }

  ghost predicate UniqueUsernames(s: Store) {
    forall i, j :: 0 <= i < j < |Rows(s.users)| ==> Rows(s.users)[i].data.username != Rows(s.users)[j].data.username
  }

  /** With unique usernames, as the SQL schema demands, login succeeds exactly for a matching username and password. */
  lemma LoginMatchesCredentials(s: Store, sess: Session, username: string, password: string)
    requires UniqueUsernames(s) && username != "" && password != ""
    ensures Login(s, sess, username, password).1.Ok? <==>
      exists i :: 0 <= i < |Rows(s.users)| && Rows(s.users)[i].data.username == username
        && Rows(s.users)[i].data.password == password
  {
    var found := UserByUsername(s, username);
    if found.Some? {
      var i :| 0 <= i < |Rows(s.users)| && Rows(s.users)[i] == found.value &&
        forall j :: 0 <= j < i ==> Rows(s.users)[j].data.username != username;
      if exists k :: (0 <= k < |Rows(s.users)| && Rows(s.users)[k].data.username == username
        && Rows(s.users)[k].data.password == password) {
        var k :| 0 <= k < |Rows(s.users)| && Rows(s.users)[k].data.username == username
          && Rows(s.users)[k].data.password == password;
        assert k == i;
      }
    }
  }

  /** The constructor's administrator can sign in and is then a manager with id 1. */
  lemma AdminLogin(now: Instant, sess: Session)
    ensures Login(NewStore(now), sess, "admin", "admin123") ==
      (Session(Some(1), Some(Manager)), Ok(UserView(1, "admin", "System Administrator", Manager)))
  {
    var s := NewStore(now);
    RowsOfDense(s.users);
    assert Rows(s.users) == [User(1, Admin, now)];
  }

  /** `GET /api/auth/me`: 401 without a session, 404 for an unknown user, else that user. */
  function CurrentUser(s: Store, sess: Session): (r: Reply<UserView>)
    ensures r == Fail(401) <==> !Truthy(sess.userId)
    ensures r == Fail(404) <==> Truthy(sess.userId) && sess.userId.value !in s.users.rows
    ensures r.Ok? ==> sess.userId.value in s.users.rows && r.body == View(s.users.rows[sess.userId.value])
    ensures Truthy(sess.userId) && sess.userId.value in s.users.rows ==> r == Ok(View(s.users.rows[sess.userId.value]))
  {
    if !Truthy(sess.userId) then Fail(401)
    else match Get(s.users, sess.userId.value)
      case None => Fail(404)
      case Some(user) => Ok(View(user))
  }
}
