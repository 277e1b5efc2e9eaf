/** `Partial<T>` payloads of the update operations and the object spread
    `{ ...record, ...updates }` that merges them. A field that is `None` is
    absent from the payload and keeps the record's value; `Some(v)` overwrites
    it. An optional field of the record is patched by an `Option<Option<_>>`,
    so a payload can also carry the field with no value and clear it. */
module Patches {
  import opened Types

  function Pick<T>(o: Option<T>, current: T): T {
    if o.Some? then o.value else current
  }

  datatype EnquiryPatch = EnquiryPatch(
    id: Option<string>,
    customerName: Option<string>,
    contact: Option<string>,
    date: Option<string>,
    details: Option<string>,
    status: Option<EnquiryStatus>)

  const NoEnquiryChange := EnquiryPatch(None, None, None, None, None, None)

  function MergeEnquiry(e: Enquiry, p: EnquiryPatch): Enquiry {
    Enquiry(Pick(p.id, e.id), Pick(p.customerName, e.customerName), Pick(p.contact, e.contact),
            Pick(p.date, e.date), Pick(p.details, e.details), Pick(p.status, e.status))
  }

  datatype QuotationPatch = QuotationPatch(
    id: Option<string>,
    enquiryId: Option<string>,
    customerId: Option<string>,
    date: Option<string>,
    items: Option<seq<QuotationItem>>,
    totalCost: Option<real>,
    status: Option<QuotationStatus>,
    fabricationCost: Option<real>,
    grandTotal: Option<real>)

  const NoQuotationChange := QuotationPatch(None, None, None, None, None, None, None, None, None)

  /** The payload that carries every field of `q` (`updateQuotation(q.id, q)`). */
  function WholeQuotation(q: Quotation): QuotationPatch {
    QuotationPatch(Some(q.id), Some(q.enquiryId), Some(q.customerId), Some(q.date), Some(q.items),
                   Some(q.totalCost), Some(q.status), Some(q.fabricationCost), Some(q.grandTotal))
  }

  function MergeQuotation(q: Quotation, p: QuotationPatch): Quotation {
    Quotation(Pick(p.id, q.id), Pick(p.enquiryId, q.enquiryId), Pick(p.customerId, q.customerId),
              Pick(p.date, q.date), Pick(p.items, q.items), Pick(p.totalCost, q.totalCost),
              Pick(p.status, q.status), Pick(p.fabricationCost, q.fabricationCost),
              Pick(p.grandTotal, q.grandTotal))
  }

  datatype SalesOrderPatch = SalesOrderPatch(
    id: Option<string>,
    quotationId: Option<string>,
    customerId: Option<string>,
    orderDate: Option<string>,
    expectedDeliveryDate: Option<string>,
    totalAmount: Option<real>,
    status: Option<OrderStatus>,
    items: Option<seq<QuotationItem>>)

  const NoSalesOrderChange := SalesOrderPatch(None, None, None, None, None, None, None, None)

  function MergeSalesOrder(o: SalesOrder, p: SalesOrderPatch): SalesOrder {
    SalesOrder(Pick(p.id, o.id), Pick(p.quotationId, o.quotationId), Pick(p.customerId, o.customerId),
               Pick(p.orderDate, o.orderDate), Pick(p.expectedDeliveryDate, o.expectedDeliveryDate),
               Pick(p.totalAmount, o.totalAmount), Pick(p.status, o.status), Pick(p.items, o.items))
  }

  datatype InventoryPatch = InventoryPatch(
    id: Option<string>,
    sku: Option<string>,
    name: Option<string>,
    category: Option<InventoryCategory>,
    quantity: Option<real>,
    unit: Option<Unit>,
    cost: Option<real>,
    supplierId: Option<string>,
    reorderLevel: Option<real>,
    color: Option<Option<string>>,
    dimensions: Option<Option<string>>)

  const NoInventoryChange := InventoryPatch(None, None, None, None, None, None, None, None, None, None, None)

  /** The payload that carries every field of `item` (the edit form's submit). */
  function WholeInventoryItem(item: InventoryItem): InventoryPatch {
    InventoryPatch(Some(item.id), Some(item.sku), Some(item.name), Some(item.category), Some(item.quantity),
                   Some(item.unit), Some(item.cost), Some(item.supplierId), Some(item.reorderLevel),
                   Some(item.color), Some(item.dimensions))
  }

  function MergeInventoryItem(i: InventoryItem, p: InventoryPatch): InventoryItem {
    InventoryItem(Pick(p.id, i.id), Pick(p.sku, i.sku), Pick(p.name, i.name), Pick(p.category, i.category),
                  Pick(p.quantity, i.quantity), Pick(p.unit, i.unit), Pick(p.cost, i.cost),
                  Pick(p.supplierId, i.supplierId), Pick(p.reorderLevel, i.reorderLevel),
                  Pick(p.color, i.color), Pick(p.dimensions, i.dimensions))
  }

  datatype CustomerPatch = CustomerPatch(
    id: Option<string>,
    name: Option<string>,
    gstNumber: Option<Option<string>>,
    address: Option<string>,
    email: Option<string>,
    phone: Option<string>)

  function MergeCustomer(c: Customer, p: CustomerPatch): Customer {
    Customer(Pick(p.id, c.id), Pick(p.name, c.name), Pick(p.gstNumber, c.gstNumber),
             Pick(p.address, c.address), Pick(p.email, c.email), Pick(p.phone, c.phone))
  }

  datatype SupplierPatch = SupplierPatch(
    id: Option<string>,
    name: Option<string>,
    gstNumber: Option<Option<string>>,
    address: Option<string>,
    email: Option<string>,
    phone: Option<string>)

  function MergeSupplier(s: Supplier, p: SupplierPatch): Supplier {
    Supplier(Pick(p.id, s.id), Pick(p.name, s.name), Pick(p.gstNumber, s.gstNumber),
             Pick(p.address, s.address), Pick(p.email, s.email), Pick(p.phone, s.phone))
  }

  datatype PurchaseOrderPatch = PurchaseOrderPatch(
    id: Option<string>,
    supplierId: Option<string>,
    orderDate: Option<string>,
    expectedDeliveryDate: Option<string>,
    status: Option<PurchaseOrderStatus>,
    items: Option<seq<PurchaseOrderItem>>,
    totalAmount: Option<real>)

  const NoPurchaseOrderChange := PurchaseOrderPatch(None, None, None, None, None, None, None)

  function MergePurchaseOrder(po: PurchaseOrder, p: PurchaseOrderPatch): PurchaseOrder {
    PurchaseOrder(Pick(p.id, po.id), Pick(p.supplierId, po.supplierId), Pick(p.orderDate, po.orderDate),
                  Pick(p.expectedDeliveryDate, po.expectedDeliveryDate), Pick(p.status, po.status),
                  Pick(p.items, po.items), Pick(p.totalAmount, po.totalAmount))
  }

  datatype ProductionJobPatch = ProductionJobPatch(
    id: Option<string>,
    orderId: Option<string>,
    stage: Option<ProductionStage>,
    assignedTo: Option<string>,
    startDate: Option<string>,
    endDate: Option<Option<string>>,
    qcPassed: Option<bool>)

  function MergeProductionJob(j: ProductionJob, p: ProductionJobPatch): ProductionJob {
    ProductionJob(Pick(p.id, j.id), Pick(p.orderId, j.orderId), Pick(p.stage, j.stage),
                  Pick(p.assignedTo, j.assignedTo), Pick(p.startDate, j.startDate),
                  Pick(p.endDate, j.endDate), Pick(p.qcPassed, j.qcPassed))
  }

  datatype InstallationPatch = InstallationPatch(
    id: Option<string>,
    orderId: Option<string>,
    scheduledDate: Option<string>,
    team: Option<seq<string>>,
    status: Option<InstallationStatus>,
    completionDate: Option<Option<string>>,
    customerFeedback: Option<Option<string>>,
    photos: Option<Option<seq<string>>>)

  const NoInstallationChange := InstallationPatch(None, None, None, None, None, None, None, None)

  function MergeInstallation(i: Installation, p: InstallationPatch): Installation {
    Installation(Pick(p.id, i.id), Pick(p.orderId, i.orderId), Pick(p.scheduledDate, i.scheduledDate),
                 Pick(p.team, i.team), Pick(p.status, i.status), Pick(p.completionDate, i.completionDate),
                 Pick(p.customerFeedback, i.customerFeedback), Pick(p.photos, i.photos))
  }

  datatype WarrantyClaimPatch = WarrantyClaimPatch(
    id: Option<string>,
    orderId: Option<string>,
    claimDate: Option<string>,
    description: Option<string>,
    status: Option<WarrantyStatus>,
    resolutionDetails: Option<Option<string>>,
    serviceVisits: Option<seq<ServiceVisit>>)

  function MergeWarrantyClaim(w: WarrantyClaim, p: WarrantyClaimPatch): WarrantyClaim {
    WarrantyClaim(Pick(p.id, w.id), Pick(p.orderId, w.orderId), Pick(p.claimDate, w.claimDate),
                  Pick(p.description, w.description), Pick(p.status, w.status),
                  Pick(p.resolutionDetails, w.resolutionDetails), Pick(p.serviceVisits, w.serviceVisits))
  }

  /** Spreading a payload that carries every field of `q` gives `q`. */
  lemma WholeQuotationMerge(old_: Quotation, q: Quotation)
    ensures MergeQuotation(old_, WholeQuotation(q)) == q
  {
  }

  /** Spreading a payload that carries every field of `item` gives `item`. */
  lemma WholeInventoryItemMerge(old_: InventoryItem, item: InventoryItem)
    ensures MergeInventoryItem(old_, WholeInventoryItem(item)) == item
  {
  }
}
