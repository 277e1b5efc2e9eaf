/** The entities of the window-fabrication ERP: every record the store keeps,
    its status enumerations and the whole-store snapshot (`AppData`).
    Money, sizes and quantities are `real`; identifiers and dates are strings. */
module Types {

  datatype Option<T> = None | Some(value: T)

  /** The outcome of an operation the source lets throw. */
  datatype Result<T> = Ok(value: T) | Err(error: string)

  datatype UserRole = Admin | Manager | Sales | Production | Installer
  {
    function Label(): string {
      match this
      case Admin => "Admin"
      case Manager => "Manager"
      case Sales => "Sales"
      case Production => "Production"
      case Installer => "Installer"
    }
  }

  datatype User = User(id: string, name: string, role: UserRole)

  datatype InventoryCategory = Profile | Hardware | Glass | Consumable
  {
    function Label(): string {
      match this
      case Profile => "Profile"
      case Hardware => "Hardware"
      case Glass => "Glass"
      case Consumable => "Consumable"
    }
  }

  datatype Unit = Meters | Pieces | Sqm | Liters | Kg

  datatype InventoryItem = InventoryItem(
    id: string,
    sku: string,
    name: string,
    category: InventoryCategory,
    quantity: real,
    unit: Unit,
    cost: real,
    supplierId: string,
    reorderLevel: real,
    color: Option<string>,       // profiles only
    dimensions: Option<string>)  // glass only

  datatype CatalogItem = CatalogItem(code: string, desc: string, color: string, price: real)

  /** A quotation line: a window of `width` x `height` mm, its material ids and
      its own computed `cost`. */
  datatype QuotationItem = QuotationItem(
    id: string,
    description: string,
    width: real,
    height: real,
    profileId: string,
    glassId: string,
    hardwareIds: seq<string>,
    cost: real,
    quantity: real)

  datatype QuotationStatus = Draft | Sent | Approved | Rejected
  {
    function Label(): string {
      match this
      case Draft => "Draft"
      case Sent => "Sent"
      case Approved => "Approved"
      case Rejected => "Rejected"
    }
  }

  datatype Quotation = Quotation(
    id: string,
    enquiryId: string,
    customerId: string,
    date: string,
    items: seq<QuotationItem>,
    totalCost: real,
    status: QuotationStatus,
    fabricationCost: real,
    grandTotal: real)

  datatype EnquiryStatus = New | Quoted | Closed

  datatype Enquiry = Enquiry(
    id: string,
    customerName: string,
    contact: string,
    date: string,
    details: string,
    status: EnquiryStatus)

  /** The eight stages of a sales order, in pipeline order. */
  datatype OrderStatus =
    | Pending
    | Cutting
    | Fabrication
    | Assembly
    | Glazing
    | ReadyForDispatch
    | Delivered
    | Installed
  {
    function Label(): string {
      match this
      case Pending => "Pending"
      case Cutting => "Cutting"
      case Fabrication => "Fabrication"
      case Assembly => "Assembly"
      case Glazing => "Glazing"
      case ReadyForDispatch => "Ready for Dispatch"
      case Delivered => "Delivered"
      case Installed => "Installed"
    }
  }

  datatype SalesOrder = SalesOrder(
    id: string,
    quotationId: string,
    customerId: string,
    orderDate: string,
    expectedDeliveryDate: string,
    totalAmount: real,
    status: OrderStatus,
    items: seq<QuotationItem>)

  datatype Customer = Customer(
    id: string,
    name: string,
    gstNumber: Option<string>,
    address: string,
    email: string,
    phone: string)

  datatype Supplier = Supplier(
    id: string,
    name: string,
    gstNumber: Option<string>,
    address: string,
    email: string,
    phone: string)

  datatype PurchaseOrderStatus = Draft | Ordered | PartiallyReceived | Received | Cancelled

  /** A purchase-order line: which item, how many, at what unit cost. */
  datatype PurchaseOrderItem = PurchaseOrderItem(inventoryItemId: string, quantity: real, unitCost: real)

  datatype PurchaseOrder = PurchaseOrder(
    id: string,
    supplierId: string,
    orderDate: string,
    expectedDeliveryDate: string,
    status: PurchaseOrderStatus,
    items: seq<PurchaseOrderItem>,
    totalAmount: real)

  datatype ProductionStage = Cutting | Welding | Cleaning | Assembly | HardwareFixing | Glazing
  {
    function Label(): string {
      match this
      case Cutting => "Cutting"
      case Welding => "Welding"
      case Cleaning => "Cleaning"
      case Assembly => "Assembly"
      case HardwareFixing => "Hardware Fixing"
      case Glazing => "Glazing"
    }
  }

  datatype ProductionJob = ProductionJob(
    id: string,
    orderId: string,
    stage: ProductionStage,
    assignedTo: string,
    startDate: string,
    endDate: Option<string>,
    qcPassed: bool)

  datatype DispatchStatus = Scheduled | InTransit | Delivered

  datatype Dispatch = Dispatch(
    id: string,
    orderId: string,
    dispatchDate: string,
    vehicleNumber: string,
    driverName: string,
    status: DispatchStatus)

  datatype InstallationStatus = Scheduled | InProgress | Completed | Delayed

  datatype Installation = Installation(
    id: string,
    orderId: string,
    scheduledDate: string,
    team: seq<string>,
    status: InstallationStatus,
    completionDate: Option<string>,
    customerFeedback: Option<string>,
    photos: Option<seq<string>>)

  datatype WarrantyStatus = Open | InProgress | Resolved | Closed

  datatype MaterialUse = MaterialUse(inventoryItemId: string, quantity: real)

  datatype ServiceVisit = ServiceVisit(
    id: string,
    date: string,
    technician: string,
    notes: string,
    materialsUsed: seq<MaterialUse>)

  datatype WarrantyClaim = WarrantyClaim(
    id: string,
    orderId: string,
    claimDate: string,
    description: string,
    status: WarrantyStatus,
    resolutionDetails: Option<string>,
    serviceVisits: seq<ServiceVisit>)

  datatype ActivityLog = ActivityLog(id: string, timestamp: string, user: string, action: string, details: string)

  datatype ToastType = Success | Error | Info

  /** A toast a page shows: its message and kind. */
  datatype Notice = Notice(message: string, kind: ToastType)

  /** One day of the valuation history: a `YYYY-MM-DD` date and the stock value. */
  datatype HistoryEntry = HistoryEntry(date: string, value: real)

  /** The whole store, one collection per entity type. */
  datatype AppData = AppData(
    enquiries: seq<Enquiry>,
    quotations: seq<Quotation>,
    salesOrders: seq<SalesOrder>,
    customers: seq<Customer>,
    suppliers: seq<Supplier>,
    inventory: seq<InventoryItem>,
    purchaseOrders: seq<PurchaseOrder>,
    productionJobs: seq<ProductionJob>,
    dispatches: seq<Dispatch>,
    installations: seq<Installation>,
    warrantyClaims: seq<WarrantyClaim>,
    activityLog: seq<ActivityLog>,
    history: seq<HistoryEntry>,
    catalog: seq<CatalogItem>)

  /** Stock value of one item. */
  function ItemValue(item: InventoryItem): real {
    item.quantity * item.cost
  }

  /** Total stock value: the sum of quantity x cost over all items. */
  function InventoryValue(items: seq<InventoryItem>): real
    decreases |items|
  {
    if items == [] then 0.0
    else InventoryValue(items[..|items| - 1]) + ItemValue(items[|items| - 1])
  }

  lemma {:induction false} InventoryValueAppend(a: seq<InventoryItem>, b: seq<InventoryItem>)
    ensures InventoryValue(a + b) == InventoryValue(a) + InventoryValue(b)
    decreases |b|
  {
    if b == [] {
      assert a + b == a;
    } else {
      assert (a + b)[..|a + b| - 1] == a + b[..|b| - 1];
      InventoryValueAppend(a, b[..|b| - 1]);
    }
  }
}
