/**
 * The records of the hospital application (types.ts) that the modelled
 * reducer branches and screens read or write. Amounts of money are exact
 * reals, stock and quantities are integers, dates are ISO-8601 strings.
 */
module Model {
  import opened Wrappers

  type Money = real

  datatype Role =
    | Admin | Doctor | Receptionist | Pharmacist | Nurse | Paramedical
    | Housekeeping | StoreIncharge | HR | MasterIT

  /** The signed-in user; only the fields the modelled code reads. */
  datatype User = User(id: string, username: string, name: string, role: Role)

  // ---------------------------------------------------------------- inventory

  datatype Category = Medicine | Consumable | General | Pathology | Radiology

  /** One batch of an inventory item (types.ts InventoryBatch). */
  datatype Batch = Batch(
    batchNumber: string,
    stock: int,
    expiryDate: string,
    costPrice: Money,
    mrp: Option<Money>)

  /** A product or service in the inventory master, owning its batches. */
  datatype Item = Item(
    id: string,
    name: string,
    category: Category,
    reorderLevel: int,
    price: Money,
    gstRate: real,
    batches: seq<Batch>)

  // ------------------------------------------------------------------ billing

  datatype BillItem = BillItem(
    itemId: string,
    itemName: string,
    quantity: int,
    pricePerUnit: Money,
    gstRate: real,
    total: Money,
    gstAmount: Money,
    batchNumber: string,
    expiryDate: string,
    discountPercentage: real,
    discountAmount: Money,
    category: Category)

  datatype PaymentMethod = Cash | Card | UPI | Insurance
  datatype BillType = Pharmacy | Services
  datatype CustomerType = Registered | WalkIn
  datatype BillStatus = PendingApproval | Approved | Rejected | Finalized | Cancelled | Returned

  datatype Bill = Bill(
    id: string,
    patientId: Option<string>,
    patientName: Option<string>,
    customerName: Option<string>,
    customerContact: Option<string>,
    customerType: CustomerType,
    billDate: string,
    items: seq<BillItem>,
    subTotal: Money,
    totalDiscount: Money,
    totalGst: Money,
    grandTotal: Money,
    paymentMethod: PaymentMethod,
    billType: BillType,
    status: BillStatus,
    requestedById: string,
    settledById: Option<string>)

  /** The name the audit log quotes for a bill's customer. */
  function CustomerOf(b: Bill): Option<string>
  {
    if b.customerType == Registered then b.patientName else b.customerName
  }

  datatype SalesReturnItem = SalesReturnItem(
    itemId: string,
    itemName: string,
    batchNumber: string,
    quantity: int,
    returnAmount: Money)

  datatype SalesReturn = SalesReturn(
    id: string,
    originalBillId: string,
    returnDate: string,
    returnedById: string,
    items: seq<SalesReturnItem>,
    totalRefundAmount: Money)

  // -------------------------------------------------------------- procurement

  datatype POItem = POItem(
    productCode: string,
    itemName: string,
    quantity: int,
    costPrice: Money,
    discountPercentage: real,
    gstRate: real,
    category: Category)

  datatype POStatus = POPending | POCompleted | POCancelled

  datatype PurchaseOrder = PurchaseOrder(
    id: string,
    vendorId: string,
    vendorName: string,
    orderDate: string,
    items: seq<POItem>,
    status: POStatus,
    subTotal: Money,
    totalDiscount: Money,
    totalGst: Money,
    grandTotal: Money)

  datatype GrnItem = GrnItem(
    productCode: string,
    itemName: string,
    orderedQuantity: int,
    receivedQuantity: int,
    costPrice: Money,
    gstRate: real,
    category: Category,
    batchNumber: string,
    expiryDate: string,
    mrp: Money)

  datatype Grn = Grn(
    id: string,
    poId: string,
    vendorId: string,
    vendorName: string,
    receivedDate: string,
    items: seq<GrnItem>,
    invoiceFileName: Option<string>)

  datatype RequisitionItem = RequisitionItem(itemId: string, itemName: string, quantity: int)
  datatype RequisitionStatus = ReqPending | ReqApproved | ReqRejected | ReqFulfilled

  datatype Requisition = Requisition(
    id: string,
    requestedById: string,
    requestedByName: string,
    department: Role,
    requestDate: string,
    items: seq<RequisitionItem>,
    status: RequisitionStatus)

  // ----------------------------------------------------------- patients, visits

  datatype PatientType = OPD | IPD
  datatype BedInfo = BedInfo(ward: string, bedNumber: string)

  datatype Vitals = Vitals(
    bp: string,
    oxygenSaturation: real,
    heartRate: real,
    height: real,
    weight: real,
    bmi: real)

  datatype MedicalHistory = MedicalHistory(
    pastBloodSugar: Option<string>,
    thyroidHistory: Option<string>,
    pastSurgeries: Option<string>,
    previousIllnesses: Option<string>,
    drugAllergies: Option<string>,
    familyMedicalHistory: Option<string>)

  /** A registered patient; the demographic fields the modelled code touches. */
  datatype Patient = Patient(
    id: string,
    name: string,
    contact: string,
    patientType: PatientType,
    assignedDoctorId: string,
    pincode: string,
    city: string,
    state: string,
    bedInfo: Option<BedInfo>,
    vitals: Option<Vitals>,
    medicalHistory: Option<MedicalHistory>)

  datatype PatientStatus =
    | WaitingForDoctor | InConsultation | InPathology | TestInProgress
    | ReportReady | WaitingForBilling | WaitingForPharmacy | Completed

  datatype PatientVisit = PatientVisit(
    id: string,
    patientId: string,
    patientName: string,
    assignedDoctorId: string,
    checkInTime: string,
    status: PatientStatus,
    statusUpdateTime: string,
    prescriptionId: Option<string>,
    labRequestId: Option<string>)

  datatype PrescriptionItem = PrescriptionItem(
    medicineId: string,
    medicineName: string,
    quantity: string,
    duration: string,
    interval: string,
    directions: string)

  datatype Prescription = Prescription(
    id: string,
    patientId: string,
    doctorId: string,
    date: string,
    diagnosis: string,
    items: seq<PrescriptionItem>)

  datatype LabRequest = LabRequest(
    id: string,
    patientId: string,
    doctorId: string,
    date: string,
    testIds: seq<string>)

  // ------------------------------------------------------------------ staff

  datatype Shift = Morning | Evening | Night

  datatype DutyAssignment = DutyAssignment(id: string, userId: string, date: string, shift: Shift)

  datatype RosterUpdateStatus = RosterPendingHR | RosterApproved | RosterRejected

  datatype RosterUpdateRequest = RosterUpdateRequest(
    id: string,
    requestedById: string,
    requestDate: string,
    periodStartDate: string,
    periodEndDate: string,
    assignments: seq<DutyAssignment>,
    status: RosterUpdateStatus)

  datatype PayComponent = PayComponent(name: string, amount: Money)

  datatype SalarySlip = SalarySlip(
    id: string,
    userId: string,
    month: int,
    year: int,
    basicPay: Money,
    allowances: seq<PayComponent>,
    deductions: seq<PayComponent>,
    netSalary: Money)

  // ------------------------------------------------------------------ audit

  /** Why a batch's stock moved, the bracketed tag of an INVENTORY_UPDATE entry. */
  datatype StockReason = Sale | Cancel | Return | Receipt | Requisitioned

  /** The values a log entry's text is built from. */
  datatype Detail =
    | BillGenerated(billId: string, customer: Option<string>, amount: Money)
    | DiscountRequested(billId: string, customer: Option<string>, amount: Money)
    | DiscountDecided(billId: string, customer: Option<string>, decision: BillStatus)
    | BillFinalized(billId: string, customer: Option<string>, amount: Money, payment: PaymentMethod)
    | BillCancelled(billId: string, customer: Option<string>, amount: Money)
    | ReturnProcessed(billId: string, customer: Option<string>, refund: Money)
    | StockMoved(reason: StockReason, itemName: string, batchNumber: string, quantity: int, from: int, to: int)
    | BatchAdded(itemName: string, batchNumber: string, stock: int)
    | ProductRegistered(itemName: string, productCode: string, batchNumber: string, stock: int)
    | GrnProcessed(grnId: string, poId: string, vendorName: string)
    | MasterUpdated(itemName: string, itemId: string)
    | MasterDeleted(itemName: string, itemId: string)
    | RequisitionUpdated(requisitionId: string, department: Role, status: RequisitionStatus)
    | ConsultationFinalized(patientName: string, patientId: string)
    | PrescriptionCreated(prescriptionId: string, patientName: string)
    | LabRequestCreated(labRequestId: string, patientName: string)

  /** One audit-log entry (types.ts AuditLog), minus its random id. */
  datatype LogEntry = LogEntry(
    timestamp: string,
    userId: string,
    userName: string,
    action: string,
    details: Detail)

  /** `createLog`: an entry stamped with the acting user and the time. */
  function CreateLog(actor: User, now: string, action: string, details: Detail): (e: LogEntry)
    ensures e.userId == actor.id && e.userName == actor.name
    ensures e.action == action && e.details == details && e.timestamp == now
  {
    LogEntry(now, actor.id, actor.name, action, details)
  }

  // ------------------------------------------------- doctors and appointments

  /** The slot ranges of one weekday, e.g. "Monday" with ["09:00-13:00", "14:00-17:00"]. */
  datatype DaySlots = DaySlots(day: string, ranges: seq<string>)

  /** An object's keys are distinct. */
  predicate DistinctDays(av: seq<DaySlots>)
  {
    forall i, j :: 0 <= i < j < |av| ==> av[i].day != av[j].day
  }

  /** A weekday-to-ranges object, its keys in insertion order. */
  type Schedule = av: seq<DaySlots> | DistinctDays(av)

  /** A doctor and the weekly availability, if one was set. */
  datatype Doctor = Doctor(id: string, name: string, availability: Option<Schedule>)

  datatype AppointmentStatus = AppointmentPending | Confirmed

  /** An appointment request; `requestDetail` names the doctor. Only the fields the screens read. */
  datatype AppointmentRequest = AppointmentRequest(
    id: string,
    requestDetail: string,
    status: AppointmentStatus,
    appointmentDate: Option<string>,
    appointmentTime: Option<string>)

  /** A document queued for printing. */
  datatype Document = BillDocument(bill: Bill) | OtherDocument(kind: string)

  /** The part of the application state the modelled commands read or write. */
  datatype AppState = AppState(
    patients: seq<Patient>,
    patientVisits: seq<PatientVisit>,
    prescriptions: seq<Prescription>,
    labRequests: seq<LabRequest>,
    inventory: seq<Item>,
    bills: seq<Bill>,
    salesReturns: seq<SalesReturn>,
    purchaseOrders: seq<PurchaseOrder>,
    goodsReceiptNotes: seq<Grn>,
    requisitions: seq<Requisition>,
    dutyRoster: seq<DutyAssignment>,
    rosterUpdateRequests: seq<RosterUpdateRequest>,
    salarySlips: seq<SalarySlip>,
    auditLogs: seq<LogEntry>,
    documentToPrint: Option<Document>)
}
