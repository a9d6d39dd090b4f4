/**
 * The generated database schema: the three closed enumerations, their runtime
 * `Constants` lists, and the row and insert shapes of the six tables with the
 * foreign keys declared between them.
 */
module Schema {
  import opened Wrappers

  type Id = string

  /** Work-order status (`os_status`). */
  datatype OsStatus = EmAndamento | AguardandoPeca | Finalizado | Entregue

  /** Payment status (`payment_status`). */
  datatype PaymentStatus = Pendente | Pago

  /** Profile role (`user_type`). */
  datatype UserType = Admin | Tecnico

  /** The enumeration members in the order the union types list them. */
  const AllOsStatuses: seq<OsStatus> := [EmAndamento, AguardandoPeca, Finalizado, Entregue]
  const AllPaymentStatuses: seq<PaymentStatus> := [Pendente, Pago]
  const AllUserTypes: seq<UserType> := [Admin, Tecnico]

  /** The database spelling of each enumeration member. */
  function OsStatusText(s: OsStatus): string {
    match s
    case EmAndamento => "em_andamento"
    case AguardandoPeca => "aguardando_peca"
    case Finalizado => "finalizado"
    case Entregue => "entregue"
  }

  function PaymentStatusText(p: PaymentStatus): string {
    match p
    case Pendente => "pendente"
    case Pago => "pago"
  }

  function UserTypeText(u: UserType): string {
    match u
    case Admin => "admin"
    case Tecnico => "tecnico"
  }

  /** Reads a status text; exactly the four spellings are accepted. */
  function ParseOsStatus(t: string): (r: Option<OsStatus>)
    ensures r.Some? ==> OsStatusText(r.value) == t
    ensures r.None? <==> forall s: OsStatus :: OsStatusText(s) != t
  {
    if t == "em_andamento" then Some(EmAndamento)
    else if t == "aguardando_peca" then Some(AguardandoPeca)
    else if t == "finalizado" then Some(Finalizado)
    else if t == "entregue" then Some(Entregue)
    else None
  }

  function ParsePaymentStatus(t: string): (r: Option<PaymentStatus>)
    ensures r.Some? ==> PaymentStatusText(r.value) == t
    ensures r.None? <==> forall p: PaymentStatus :: PaymentStatusText(p) != t
  {
    if t == "pendente" then Some(Pendente)
    else if t == "pago" then Some(Pago)
    else None
  }

  function ParseUserType(t: string): (r: Option<UserType>)
    ensures r.Some? ==> UserTypeText(r.value) == t
    ensures r.None? <==> forall u: UserType :: UserTypeText(u) != t
  {
    if t == "admin" then Some(Admin)
    else if t == "tecnico" then Some(Tecnico)
    else None
  }

  /** Text and parse are inverse on the enumerations. */
  lemma EnumTextRoundTrip(s: OsStatus, p: PaymentStatus, u: UserType)
    ensures ParseOsStatus(OsStatusText(s)) == Some(s)
    ensures ParsePaymentStatus(PaymentStatusText(p)) == Some(p)
    ensures ParseUserType(UserTypeText(u)) == Some(u)
  {
  }

  /** `Constants.public.Enums.os_status`: every member once, in union order. */
  function OsStatusConstants(): (r: seq<string>)
    ensures |r| == |AllOsStatuses|
    ensures forall i :: 0 <= i < |r| ==> ParseOsStatus(r[i]) == Some(AllOsStatuses[i])
    ensures forall s: OsStatus :: OsStatusText(s) in r
    ensures forall i, j :: 0 <= i < j < |r| ==> r[i] != r[j]
  {
    ["em_andamento", "aguardando_peca", "finalizado", "entregue"]
  }

  /** `Constants.public.Enums.payment_status`. */
  function PaymentStatusConstants(): (r: seq<string>)
    ensures |r| == |AllPaymentStatuses|
    ensures forall i :: 0 <= i < |r| ==> ParsePaymentStatus(r[i]) == Some(AllPaymentStatuses[i])
    ensures forall p: PaymentStatus :: PaymentStatusText(p) in r
    ensures forall i, j :: 0 <= i < j < |r| ==> r[i] != r[j]
  {
    ["pendente", "pago"]
  }

  /** `Constants.public.Enums.user_type`. */
  function UserTypeConstants(): (r: seq<string>)
    ensures |r| == |AllUserTypes|
    ensures forall i :: 0 <= i < |r| ==> ParseUserType(r[i]) == Some(AllUserTypes[i])
    ensures forall u: UserType :: UserTypeText(u) in r
    ensures forall i, j :: 0 <= i < j < |r| ==> r[i] != r[j]
  {
    ["admin", "tecnico"]
  }

  /** Creation time, as far as the model needs it: month (0-11, as `getMonth`) and year. */
  datatype Date = Date(year: int, month: int)

  /** `clients` row. */
  datatype ClientRow = ClientRow(
    id: Id, name: string, email: Option<string>, phone: Option<string>,
    address: Option<string>, userId: Id, createdAt: Date)

  /** `equipments` row; `clientId` references `clients`. */
  datatype EquipmentRow = EquipmentRow(
    id: Id, kind: string, brand: Option<string>, model: Option<string>,
    serialNumber: Option<string>, observations: Option<string>,
    clientId: Id, userId: Id, createdAt: Date)

  /**
   * `profiles` row. `status` is a nullable free string, not an enumeration, so
   * values other than "ativo" and "inativo" are representable.
   */
  datatype ProfileRow = ProfileRow(
    id: Id, name: string, phone: Option<string>, position: Option<string>,
    status: Option<string>, userId: Id, userType: UserType, createdBy: Option<Id>)

  /** `service_orders` row; money is kept in integer cents. */
  datatype ServiceOrderRow = ServiceOrderRow(
    id: Id, clientId: Id, equipmentId: Id, technicianId: Id,
    problemDescription: string, solutionDescription: Option<string>,
    status: OsStatus, paymentStatus: PaymentStatus, userId: Id,
    value: Option<int>, createdAt: Date)

  /** `media_files` row; belongs to one service order. */
  datatype MediaFileRow = MediaFileRow(
    id: Id, serviceOrderId: Id, fileUrl: string, fileType: string, fileName: Option<string>)

  /** `signatures` row; belongs to one service order. */
  datatype SignatureRow = SignatureRow(id: Id, serviceOrderId: Id, signatureUrl: string)

  /**
   * `service_orders` Insert shape: client, equipment, technician, problem description
   * and owner are mandatory; status, payment status, value and solution are optional
   * (None leaves the column to its database default).
   */
  datatype ServiceOrderInsert = ServiceOrderInsert(
    clientId: Id, equipmentId: Id, technicianId: Id, problemDescription: string, userId: Id,
    status: Option<OsStatus>, paymentStatus: Option<PaymentStatus>,
    value: Option<int>, solutionDescription: Option<string>)

  /** `clients` Insert shape: name and owner are mandatory. */
  datatype ClientInsert = ClientInsert(
    name: string, email: Option<string>, phone: Option<string>, address: Option<string>, userId: Id)

  /** The row the database stores for a client insert. */
  function ClientFromInsert(ins: ClientInsert, id: Id, now: Date): (r: ClientRow)
    ensures r.id == id && r.createdAt == now
    ensures r.name == ins.name && r.email == ins.email && r.phone == ins.phone
    ensures r.address == ins.address && r.userId == ins.userId
  {
    ClientRow(id, ins.name, ins.email, ins.phone, ins.address, ins.userId, now)
  }

  /** `equipments` Insert shape: type, client and owner are mandatory. */
  datatype EquipmentInsert = EquipmentInsert(
    kind: string, brand: Option<string>, model: Option<string>, serialNumber: Option<string>,
    observations: Option<string>, clientId: Id, userId: Id)

  /** The row the database stores for an equipment insert. */
  function EquipmentFromInsert(ins: EquipmentInsert, id: Id, now: Date): (r: EquipmentRow)
    ensures r.id == id && r.createdAt == now
    ensures r.kind == ins.kind && r.brand == ins.brand && r.model == ins.model
    ensures r.serialNumber == ins.serialNumber && r.observations == ins.observations
    ensures r.clientId == ins.clientId && r.userId == ins.userId
  {
    EquipmentRow(id, ins.kind, ins.brand, ins.model, ins.serialNumber, ins.observations,
                 ins.clientId, ins.userId, now)
  }

  /**
   * The row the database stores for a service-order insert: omitted status and
   * payment status take the column defaults, which the schema does not show and
   * are therefore parameters here.
   */
  function ServiceOrderFromInsert(
    ins: ServiceOrderInsert, id: Id, now: Date,
    defaultStatus: OsStatus, defaultPayment: PaymentStatus): (r: ServiceOrderRow)
    ensures r.id == id && r.createdAt == now
    ensures r.clientId == ins.clientId && r.equipmentId == ins.equipmentId
    ensures r.technicianId == ins.technicianId && r.userId == ins.userId
    ensures r.problemDescription == ins.problemDescription
    ensures r.status == ins.status.GetOr(defaultStatus)
    ensures r.paymentStatus == ins.paymentStatus.GetOr(defaultPayment)
    ensures r.value == ins.value && r.solutionDescription == ins.solutionDescription
  {
    ServiceOrderRow(
      id, ins.clientId, ins.equipmentId, ins.technicianId, ins.problemDescription,
      ins.solutionDescription, ins.status.GetOr(defaultStatus),
      ins.paymentStatus.GetOr(defaultPayment), ins.userId, ins.value, now)
  }

  /** The insert that reproduces an existing row when given its own id and date. */
  function InsertOf(row: ServiceOrderRow): ServiceOrderInsert {
    ServiceOrderInsert(
      row.clientId, row.equipmentId, row.technicianId, row.problemDescription, row.userId,
      Some(row.status), Some(row.paymentStatus), row.value, row.solutionDescription)
  }

  /** Every stored service order can be written as an insert; nothing about it is lost. */
  lemma InsertRoundTrip(row: ServiceOrderRow, ds: OsStatus, dp: PaymentStatus)
    ensures ServiceOrderFromInsert(InsertOf(row), row.id, row.createdAt, ds, dp) == row
  {
  }
  /** The columns a client edit writes: all four, "" included. */
  datatype ClientUpdate = ClientUpdate(
    name: string, email: Option<string>, phone: Option<string>, address: Option<string>)

  function ApplyClientUpdate(row: ClientRow, u: ClientUpdate): (r: ClientRow)
    ensures r.id == row.id && r.userId == row.userId && r.createdAt == row.createdAt
    ensures r.name == u.name && r.email == u.email && r.phone == u.phone && r.address == u.address
  {
    row.(name := u.name, email := u.email, phone := u.phone, address := u.address)
  }

  /** The columns an equipment edit writes: the six form fields. */
  datatype EquipmentUpdate = EquipmentUpdate(
    kind: string, brand: Option<string>, model: Option<string>, serialNumber: Option<string>,
    observations: Option<string>, clientId: Id)

  function ApplyEquipmentUpdate(row: EquipmentRow, u: EquipmentUpdate): (r: EquipmentRow)
    ensures r.id == row.id && r.userId == row.userId && r.createdAt == row.createdAt
    ensures r.kind == u.kind && r.brand == u.brand && r.model == u.model
    ensures r.serialNumber == u.serialNumber && r.observations == u.observations
    ensures r.clientId == u.clientId
  {
    row.(kind := u.kind, brand := u.brand, model := u.model, serialNumber := u.serialNumber,
         observations := u.observations, clientId := u.clientId)
  }

  /**
   * A profile update: a column is written only when its entry is Some (the Update
   * shape's optional keys); the written value may itself be null.
   */
  datatype ProfileUpdate = ProfileUpdate(
    name: Option<string>, phone: Option<Option<string>>,
    position: Option<Option<string>>, status: Option<Option<string>>)

  function ApplyProfileUpdate(row: ProfileRow, u: ProfileUpdate): (r: ProfileRow)
    ensures r.id == row.id && r.userId == row.userId && r.userType == row.userType
    ensures r.createdBy == row.createdBy
    ensures r.name == u.name.GetOr(row.name) && r.phone == u.phone.GetOr(row.phone)
    ensures r.position == u.position.GetOr(row.position) && r.status == u.status.GetOr(row.status)
  {
    row.(name := u.name.GetOr(row.name), phone := u.phone.GetOr(row.phone),
         position := u.position.GetOr(row.position), status := u.status.GetOr(row.status))
  }
}
