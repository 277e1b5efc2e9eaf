/** The data context (`contexts/DataContext.tsx`): the wrappers the pages call.
    Each one makes its store call and then, under a condition on the payload
    or the result, appends one activity-log entry through the store (which
    persists a second time). The React state mirror and the subscriber
    broadcast are not modelled; the store is the state. */
module DataContext {
  import opened Types
  import opened Patches
  import opened Collections
  import opened Valuation
  import opened Api
  import Text

  /** What one wrapper call reads from the outside world: the instant (used for
      the store call, the log stamp and both persists) and the two random draws
      (the record's id and the log entry's id). */
  datatype Env = Env(now: string, random36: string, logRandom36: string)

  function Today(env: Env): string {
    DateOf(env.now)
  }

  /** The log's user: the signed-in user's name, or `System` when nobody is
      signed in or the name is empty. */
  function LogUser(user: Option<User>): (name: string)
    ensures name != ""
    ensures user.Some? && user.value.name != "" ==> name == user.value.name
  {
    if user.Some? && user.value.name != "" then user.value.name else "System"
  }

  /** The entry `logAction(action, details)` appends. */
  function LogEntry(user: Option<User>, action: string, details: string, env: Env): (e: ActivityLog)
    ensures e.user == LogUser(user) && e.action == action && e.details == details && e.timestamp == env.now
  {
    ActivityLog(GenerateId("LOG", env.logRandom36), env.now, LogUser(user), action, details)
  }

  /** The store after an operation's own write `d` and one log entry. */
  function Logged(d: AppData, user: Option<User>, action: string, details: string, env: Env): (r: AppData)
    ensures |r.activityLog| == |d.activityLog| + 1
    ensures r.activityLog[|d.activityLog|] == LogEntry(user, action, details, env)
  {
    WithLog(d, LogEntry(user, action, details, env), Today(env))
  }

  /** The catalog log reports how many items were submitted, not how many the
      import kept: the entry always counts the whole batch, and a batch whose
      every code is already present leaves the catalog as it was while still
      logging it. */
  lemma CatalogLogCountsSubmitted(d: AppData, user: Option<User>, items: seq<CatalogItem>, env: Env)
    ensures var r := AddToCatalogEffect(d, user, items, env);
      |r.activityLog| == |d.activityLog| + 1
      && r.activityLog[|d.activityLog|].action == "Catalog Imported"
      && r.activityLog[|d.activityLog|].details == Text.NatText(|items|) + " new items added to the catalog from CSV."
      && r.catalog == CatalogMerge(d.catalog, items)
    ensures (forall i :: 0 <= i < |items| ==> HasCode(d.catalog, items[i].code)) ==>
      AddToCatalogEffect(d, user, items, env).catalog == d.catalog
  {
    if forall i :: 0 <= i < |items| ==> HasCode(d.catalog, items[i].code) {
      CatalogMergeKnownCodes(d.catalog, items);
    }
  }

  /** An instance where the two counts differ: a code already present in
      another case is kept out of the catalog, and the log still reports one
      new item. */
  lemma CatalogLogOvercounts()
    ensures var c := [CatalogItem("W-100", "Frame", "White", 10.0)];
      var items := [CatalogItem("w-100", "Frame", "White", 12.0)];
      CatalogMerge(c, items) == c && Text.NatText(|items|) == "1"
  {
    var c := [CatalogItem("W-100", "Frame", "White", 10.0)];
    var items := [CatalogItem("w-100", "Frame", "White", 12.0)];
    assert items[..0] == [];
    assert CatalogMerge(c, items[..0]) == c;
    assert Text.Lower(c[0].code) == Text.Lower(items[0].code);
    assert HasCode(c, items[0].code);
    assert Text.NatText(1) == [Text.DigitChar(1)];
  }

  // ---------------------------------------------------------------- effects of the wrappers

  /** The id `generateId` gives a record added under `env`. */
  function NewId(prefix: string, env: Env): string {
    GenerateId(prefix, env.random36)
  }

  function AddEnquiryEffect(d: AppData, user: Option<User>, e: Enquiry, env: Env): AppData {
    var r := e.(id := NewId("ENQ", env));
    Logged(Persisted(d.(enquiries := d.enquiries + [r]), Today(env)),
           user, "Enquiry Created", "New enquiry #" + r.id + " for " + r.customerName, env)
  }

  function UpdateEnquiryEffect(d: AppData, id: string, patch: EnquiryPatch, env: Env): AppData {
    Persisted(d.(enquiries := MapWhere(d.enquiries, EnquiryKey, id, e => MergeEnquiry(e, patch))), Today(env))
  }

  function AddQuotationEffect(d: AppData, user: Option<User>, q: Quotation, env: Env): AppData {
    var r := q.(id := NewId("QT", env));
    Logged(Persisted(d.(quotations := d.quotations + [r], enquiries := MarkQuoted(d.enquiries, q.enquiryId)), Today(env)),
           user, "Quotation Created", "New quotation #" + r.id + " created.", env)
  }

  function UpdateQuotationEffect(d: AppData, user: Option<User>, id: string, patch: QuotationPatch, env: Env): AppData {
    var written := Persisted(d.(quotations := MapWhere(d.quotations, QuotationKey, id, q => MergeQuotation(q, patch))), Today(env));
    if patch.status.Some?
    then Logged(written, user, "Quotation Status Updated", "Quotation #" + id + " status changed to " + patch.status.value.Label(), env)
    else written
  }

  function AddSalesOrderEffect(d: AppData, user: Option<User>, o: SalesOrder, env: Env): AppData {
    var r := o.(id := NewId("SO", env));
    Logged(Persisted(d.(salesOrders := d.salesOrders + [r]), Today(env)),
           user, "Sales Order Created", "New sales order #" + r.id + " from quotation #" + r.quotationId, env)
  }

  function UpdateSalesOrderEffect(d: AppData, user: Option<User>, id: string, patch: SalesOrderPatch, env: Env): AppData {
    var written := Persisted(d.(salesOrders := MapWhere(d.salesOrders, SalesOrderKey, id, o => MergeSalesOrder(o, patch))), Today(env));
    if patch.status.Some?
    then Logged(written, user, "Order Status Updated", "Order #" + id + " status changed to " + patch.status.value.Label(), env)
    else written
  }

  function AddInventoryItemEffect(d: AppData, user: Option<User>, item: InventoryItem, env: Env): AppData {
    var r := item.(id := NewId("INV", env));
    Logged(Persisted(d.(inventory := d.inventory + [r]), Today(env)),
           user, "Inventory Item Added", "New item: " + r.name + " (SKU: " + r.sku + ")", env)
  }

  function UpdateInventoryItemEffect(d: AppData, user: Option<User>, id: string, patch: InventoryPatch, show: real -> string, env: Env): AppData {
    var merged := MapWhere(d.inventory, ItemKey, id, i => MergeInventoryItem(i, patch));
    var written := Persisted(d.(inventory := merged), Today(env));
    match FindFirst(merged, ItemKey, id)
    case None => written
    case Some(item) => Logged(written, user, "Inventory Updated", "Item #" + id + " updated. New quantity: " + show(item.quantity), env)
  }

  function DeleteInventoryItemEffect(d: AppData, user: Option<User>, id: string, env: Env): AppData {
    Logged(Persisted(d.(inventory := FilterOut(d.inventory, ItemKey, id)), Today(env)),
           user, "Inventory Item Deleted", "Item ID #" + id + " was deleted.", env)
  }

  function AddCustomerEffect(d: AppData, user: Option<User>, c: Customer, env: Env): AppData {
    var r := c.(id := NewId("CUST", env));
    Logged(Persisted(d.(customers := d.customers + [r]), Today(env)), user, "Customer Added", "New customer: " + r.name, env)
  }

  function UpdateCustomerEffect(d: AppData, id: string, patch: CustomerPatch, env: Env): AppData {
    Persisted(d.(customers := MapWhere(d.customers, CustomerKey, id, c => MergeCustomer(c, patch))), Today(env))
  }

  function DeleteCustomerEffect(d: AppData, user: Option<User>, id: string, env: Env): AppData {
    Logged(Persisted(d.(customers := FilterOut(d.customers, CustomerKey, id)), Today(env)),
           user, "Customer Deleted", "Customer ID #" + id + " was deleted.", env)
  }

  function AddSupplierEffect(d: AppData, user: Option<User>, s: Supplier, env: Env): AppData {
    var r := s.(id := NewId("SUP", env));
    Logged(Persisted(d.(suppliers := d.suppliers + [r]), Today(env)), user, "Supplier Added", "New supplier: " + r.name, env)
  }

  function UpdateSupplierEffect(d: AppData, id: string, patch: SupplierPatch, env: Env): AppData {
    Persisted(d.(suppliers := MapWhere(d.suppliers, SupplierKey, id, s => MergeSupplier(s, patch))), Today(env))
  }

  function DeleteSupplierEffect(d: AppData, user: Option<User>, id: string, env: Env): AppData {
    Logged(Persisted(d.(suppliers := FilterOut(d.suppliers, SupplierKey, id)), Today(env)),
           user, "Supplier Deleted", "Supplier ID #" + id + " was deleted.", env)
  }

  function AddPurchaseOrderEffect(d: AppData, user: Option<User>, po: PurchaseOrder, env: Env): AppData {
    var r := po.(id := NewId("PO", env));
    Logged(Persisted(d.(purchaseOrders := d.purchaseOrders + [r]), Today(env)),
           user, "Purchase Order Created", "New PO #" + r.id + " created.", env)
  }

  function UpdatePurchaseOrderEffect(d: AppData, user: Option<User>, id: string, patch: PurchaseOrderPatch, env: Env): AppData {
    var u := UpdatePurchaseOrders(d.purchaseOrders, d.inventory, id, patch);
    if u.throws then d.(purchaseOrders := u.purchaseOrders)
    else
      var written := Persisted(d.(purchaseOrders := u.purchaseOrders, inventory := u.inventory), Today(env));
      if patch.status == Some(PurchaseOrderStatus.Received)
      then Logged(written, user, "PO Received", "PO #" + id + " marked as received. Stock updated.", env)
      else written
  }

  function AddProductionJobEffect(d: AppData, user: Option<User>, job: ProductionJob, env: Env): AppData {
    var r := job.(id := NewId("PROD", env));
    Logged(Persisted(d.(productionJobs := d.productionJobs + [r]), Today(env)),
           user, "Production Job Started", "Job for order #" + r.orderId + " started. Stage: " + r.stage.Label(), env)
  }

  function UpdateProductionJobEffect(d: AppData, id: string, patch: ProductionJobPatch, env: Env): AppData {
    Persisted(d.(productionJobs := MapWhere(d.productionJobs, ProductionJobKey, id, j => MergeProductionJob(j, patch))), Today(env))
  }

  function AddDispatchEffect(d: AppData, user: Option<User>, disp: Dispatch, env: Env): AppData {
    var r := disp.(id := NewId("DISP", env));
    Logged(Persisted(d.(dispatches := d.dispatches + [r]), Today(env)),
           user, "Order Dispatched", "Order #" + r.orderId + " dispatched.", env)
  }

  function AddInstallationEffect(d: AppData, user: Option<User>, inst: Installation, env: Env): AppData {
    var r := inst.(id := NewId("INST", env));
    Logged(Persisted(d.(installations := d.installations + [r]), Today(env)),
           user, "Installation Scheduled", "Installation for order #" + r.orderId + " scheduled.", env)
  }

  function UpdateInstallationEffect(d: AppData, user: Option<User>, id: string, patch: InstallationPatch, env: Env): AppData {
    var merged := MapWhere(d.installations, InstallationKey, id, i => MergeInstallation(i, patch));
    var written := Persisted(d.(installations := merged), Today(env));
    match FindFirst(merged, InstallationKey, id)
    case Some(inst) =>
      if patch.status == Some(InstallationStatus.Completed)
      then Logged(written, user, "Installation Completed", "Installation for order #" + inst.orderId + " completed.", env)
      else written
    case None => written
  }

  function AddWarrantyClaimEffect(d: AppData, user: Option<User>, w: WarrantyClaim, env: Env): AppData {
    var r := w.(id := NewId("WARR", env));
    Logged(Persisted(d.(warrantyClaims := d.warrantyClaims + [r]), Today(env)),
           user, "Warranty Claim Opened", "New claim for order #" + r.orderId + ".", env)
  }

  function UpdateWarrantyClaimEffect(d: AppData, id: string, patch: WarrantyClaimPatch, env: Env): AppData {
    Persisted(d.(warrantyClaims := MapWhere(d.warrantyClaims, WarrantyClaimKey, id, w => MergeWarrantyClaim(w, patch))), Today(env))
  }

  function LoadBackupEffect(backup: AppData, user: Option<User>, env: Env): AppData {
    Logged(Persisted(backup, Today(env)), user, "Data Restore", "Application data restored from backup.", env)
  }

  function ResetDataEffect(d: AppData, user: Option<User>, confirmed: bool, loadTime: string, env: Env): AppData {
    if confirmed
    then Logged(Persisted(SeedData(loadTime), Today(env)), user, "System Reset", "All application data has been reset to default.", env)
    else d
  }

  function AddToCatalogEffect(d: AppData, user: Option<User>, items: seq<CatalogItem>, env: Env): AppData {
    Logged(Persisted(d.(catalog := CatalogMerge(d.catalog, items)), Today(env)),
           user, "Catalog Imported", Text.NatText(|items|) + " new items added to the catalog from CSV.", env)
  }

  // ---------------------------------------------------------------- logging conditions

  /** `updateQuotation` and `updateSalesOrder` log one entry exactly when the
      payload carries a status; every other part of the store but the log and
      the history is the store's own update. */
  lemma StatusUpdatesLogOnlyWithStatus(d: AppData, user: Option<User>, id: string, qp: QuotationPatch, sp: SalesOrderPatch, env: Env)
    ensures |UpdateQuotationEffect(d, user, id, qp, env).activityLog| == |d.activityLog| + (if qp.status.Some? then 1 else 0)
    ensures |UpdateSalesOrderEffect(d, user, id, sp, env).activityLog| == |d.activityLog| + (if sp.status.Some? then 1 else 0)
    ensures UpdateQuotationEffect(d, user, id, qp, env).quotations == MapWhere(d.quotations, QuotationKey, id, q => MergeQuotation(q, qp))
    ensures UpdateSalesOrderEffect(d, user, id, sp, env).salesOrders == MapWhere(d.salesOrders, SalesOrderKey, id, o => MergeSalesOrder(o, sp))
  {
  }

  /** `updateEnquiry`, `updateCustomer`, `updateSupplier`, `updateProductionJob`
      and `updateWarrantyClaim` log nothing. */
  lemma SilentUpdatesLogNothing(d: AppData, id: string, ep: EnquiryPatch, cp: CustomerPatch, sp: SupplierPatch,
                                jp: ProductionJobPatch, wp: WarrantyClaimPatch, env: Env)
    ensures UpdateEnquiryEffect(d, id, ep, env).activityLog == d.activityLog
    ensures UpdateCustomerEffect(d, id, cp, env).activityLog == d.activityLog
    ensures UpdateSupplierEffect(d, id, sp, env).activityLog == d.activityLog
    ensures UpdateProductionJobEffect(d, id, jp, env).activityLog == d.activityLog
    ensures UpdateWarrantyClaimEffect(d, id, wp, env).activityLog == d.activityLog
  {
  }

  /** `PO Received` is logged whenever the payload says `Received`, also when
      the order was already received and no stock moves, and also when the
      payload moves that order off its id (the store then short-circuits its
      guard and does not throw). */
  lemma ReceivedLoggedWithoutCredit(d: AppData, user: Option<User>, id: string, patch: PurchaseOrderPatch, env: Env)
    requires patch.status == Some(PurchaseOrderStatus.Received)
    requires FindFirst(d.purchaseOrders, PurchaseOrderKey, id).Some?
    requires FindFirst(d.purchaseOrders, PurchaseOrderKey, id).value.status == PurchaseOrderStatus.Received
    ensures var r := UpdatePurchaseOrderEffect(d, user, id, patch, env);
      r.inventory == d.inventory
      && |r.activityLog| == |d.activityLog| + 1 && r.activityLog[|d.activityLog|].action == "PO Received"
  {
    AlreadyReceivedCreditsNothing(d.purchaseOrders, d.inventory, id, patch);
  }

  /** A declined reset changes nothing; a confirmed one leaves the seed's
      collections and its start-up entry followed by the reset entry, whatever
      was written before it. */
  lemma ResetOutcome(d: AppData, user: Option<User>, confirmed: bool, loadTime: string, env: Env)
    ensures !confirmed ==> ResetDataEffect(d, user, false, loadTime, env) == d
    ensures confirmed ==> var r := ResetDataEffect(d, user, true, loadTime, env);
      r.inventory == [] && r.catalog == [] && r.salesOrders == [] && r.enquiries == []
      && |r.activityLog| == 2 && r.activityLog[0] == SeedData(loadTime).activityLog[0]
      && r.activityLog[1].action == "System Reset" && |r.history| == 1
    ensures confirmed ==> forall e: AppData :: ResetDataEffect(e, user, true, loadTime, env) == ResetDataEffect(d, user, true, loadTime, env)
  {
  }

  class Context {
    const db: Database
    /** The signed-in user, if any. */
    const user: Option<User>

    constructor (db: Database, user: Option<User>)
      ensures this.db == db && this.user == user
    {
      this.db := db;
      this.user := user;
    }

    /** `logAction`: append one entry through the store. */
    method LogAction(action: string, details: string, env: Env)
      modifies db
      ensures db.Data() == Logged(old(db.Data()), user, action, details, env)
    {
      var _ := db.AddActivityLog(LogUser(user), action, details, env.logRandom36, env.now);
    }

    method AddEnquiry(e: Enquiry, env: Env) returns (r: Enquiry)
      modifies db
      ensures r == e.(id := NewId("ENQ", env))
      ensures db.Data() == AddEnquiryEffect(old(db.Data()), user, e, env)
    {
      r := db.AddEnquiry(e, env.random36, env.now);
      LogAction("Enquiry Created", "New enquiry #" + r.id + " for " + r.customerName, env);
    }

    method UpdateEnquiry(id: string, patch: EnquiryPatch, env: Env) returns (r: Option<Enquiry>)
      modifies db
      ensures db.Data() == UpdateEnquiryEffect(old(db.Data()), id, patch, env)
      ensures r == FindFirst(db.enquiries, EnquiryKey, id)
    {
      r := db.UpdateEnquiry(id, patch, env.now);
    }

    method AddQuotation(q: Quotation, env: Env) returns (r: Quotation)
      modifies db
      ensures r == q.(id := NewId("QT", env))
      ensures db.Data() == AddQuotationEffect(old(db.Data()), user, q, env)
    {
      r := db.AddQuotation(q, env.random36, env.now);
      LogAction("Quotation Created", "New quotation #" + r.id + " created.", env);
    }

    method UpdateQuotation(id: string, patch: QuotationPatch, env: Env) returns (r: Option<Quotation>)
      modifies db
      ensures db.Data() == UpdateQuotationEffect(old(db.Data()), user, id, patch, env)
      ensures r == FindFirst(db.quotations, QuotationKey, id)
    {
      r := db.UpdateQuotation(id, patch, env.now);
      if patch.status.Some? {
        LogAction("Quotation Status Updated", "Quotation #" + id + " status changed to " + patch.status.value.Label(), env);
      }
    }

    method AddSalesOrder(o: SalesOrder, env: Env) returns (r: SalesOrder)
      modifies db
      ensures r == o.(id := NewId("SO", env))
      ensures db.Data() == AddSalesOrderEffect(old(db.Data()), user, o, env)
    {
      r := db.AddSalesOrder(o, env.random36, env.now);
      LogAction("Sales Order Created", "New sales order #" + r.id + " from quotation #" + r.quotationId, env);
    }

    method UpdateSalesOrder(id: string, patch: SalesOrderPatch, env: Env) returns (r: Option<SalesOrder>)
      modifies db
      ensures db.Data() == UpdateSalesOrderEffect(old(db.Data()), user, id, patch, env)
      ensures r == FindFirst(db.salesOrders, SalesOrderKey, id)
    {
      r := db.UpdateSalesOrder(id, patch, env.now);
      if patch.status.Some? {
        LogAction("Order Status Updated", "Order #" + id + " status changed to " + patch.status.value.Label(), env);
      }
    }

    method AddInventoryItem(item: InventoryItem, env: Env) returns (r: InventoryItem)
      modifies db
      ensures r == item.(id := NewId("INV", env))
      ensures db.Data() == AddInventoryItemEffect(old(db.Data()), user, item, env)
    {
      r := db.AddInventoryItem(item, env.random36, env.now);
      LogAction("Inventory Item Added", "New item: " + r.name + " (SKU: " + r.sku + ")", env);
    }

    /** Always logs the new quantity (written by `show`); when no item is
        stored under the id afterwards, reading its quantity throws after the
        store has persisted, and nothing is logged. */
    method UpdateInventoryItem(id: string, patch: InventoryPatch, show: real -> string, env: Env) returns (r: Result<InventoryItem>)
      modifies db
      ensures db.Data() == UpdateInventoryItemEffect(old(db.Data()), user, id, patch, show, env)
      ensures match FindFirst(db.inventory, ItemKey, id)
        case None => r.Err?
        case Some(item) => r == Ok(item)
    {
      var updated := db.UpdateInventoryItem(id, patch, env.now);
      if updated.None? {
        return Err("TypeError: Cannot read properties of undefined (reading 'quantity')");
      }
      LogAction("Inventory Updated", "Item #" + id + " updated. New quantity: " + show(updated.value.quantity), env);
      r := Ok(updated.value);
    }

    method DeleteInventoryItem(id: string, env: Env)
      modifies db
      ensures db.Data() == DeleteInventoryItemEffect(old(db.Data()), user, id, env)
    {
      db.DeleteInventoryItem(id, env.now);
      LogAction("Inventory Item Deleted", "Item ID #" + id + " was deleted.", env);
    }

    method AddCustomer(c: Customer, env: Env) returns (r: Customer)
      modifies db
      ensures r == c.(id := NewId("CUST", env))
      ensures db.Data() == AddCustomerEffect(old(db.Data()), user, c, env)
    {
      r := db.AddCustomer(c, env.random36, env.now);
      LogAction("Customer Added", "New customer: " + r.name, env);
    }

    method UpdateCustomer(id: string, patch: CustomerPatch, env: Env) returns (r: Option<Customer>)
      modifies db
      ensures db.Data() == UpdateCustomerEffect(old(db.Data()), id, patch, env)
      ensures r == FindFirst(db.customers, CustomerKey, id)
    {
      r := db.UpdateCustomer(id, patch, env.now);
    }

    method DeleteCustomer(id: string, env: Env)
      modifies db
      ensures db.Data() == DeleteCustomerEffect(old(db.Data()), user, id, env)
    {
      db.DeleteCustomer(id, env.now);
      LogAction("Customer Deleted", "Customer ID #" + id + " was deleted.", env);
    }

    method AddSupplier(s: Supplier, env: Env) returns (r: Supplier)
      modifies db
      ensures r == s.(id := NewId("SUP", env))
      ensures db.Data() == AddSupplierEffect(old(db.Data()), user, s, env)
    {
      r := db.AddSupplier(s, env.random36, env.now);
      LogAction("Supplier Added", "New supplier: " + r.name, env);
    }

    method UpdateSupplier(id: string, patch: SupplierPatch, env: Env) returns (r: Option<Supplier>)
      modifies db
      ensures db.Data() == UpdateSupplierEffect(old(db.Data()), id, patch, env)
      ensures r == FindFirst(db.suppliers, SupplierKey, id)
    {
      r := db.UpdateSupplier(id, patch, env.now);
    }

    method DeleteSupplier(id: string, env: Env)
      modifies db
      ensures db.Data() == DeleteSupplierEffect(old(db.Data()), user, id, env)
    {
      db.DeleteSupplier(id, env.now);
      LogAction("Supplier Deleted", "Supplier ID #" + id + " was deleted.", env);
    }

    method AddPurchaseOrder(po: PurchaseOrder, env: Env) returns (r: PurchaseOrder)
      modifies db
      ensures r == po.(id := NewId("PO", env))
      ensures db.Data() == AddPurchaseOrderEffect(old(db.Data()), user, po, env)
    {
      r := db.AddPurchaseOrder(po, env.random36, env.now);
      LogAction("Purchase Order Created", "New PO #" + r.id + " created.", env);
    }

    /** Logs `PO Received` whenever the payload's status is `Received`, also
        when the order already was and no stock was credited; a failed store
        call logs nothing. */
    method UpdatePurchaseOrder(id: string, patch: PurchaseOrderPatch, env: Env) returns (r: Result<Option<PurchaseOrder>>)
      modifies db
      ensures db.Data() == UpdatePurchaseOrderEffect(old(db.Data()), user, id, patch, env)
      ensures var u := UpdatePurchaseOrders(old(db.purchaseOrders), old(db.inventory), id, patch);
        if u.throws then r.Err? else r == Ok(u.updated)
    {
      r := db.UpdatePurchaseOrder(id, patch, env.now);
      if r.Ok? && patch.status == Some(PurchaseOrderStatus.Received) {
        LogAction("PO Received", "PO #" + id + " marked as received. Stock updated.", env);
      }
    }

    method AddProductionJob(job: ProductionJob, env: Env) returns (r: ProductionJob)
      modifies db
      ensures r == job.(id := NewId("PROD", env))
      ensures db.Data() == AddProductionJobEffect(old(db.Data()), user, job, env)
    {
      r := db.AddProductionJob(job, env.random36, env.now);
      LogAction("Production Job Started", "Job for order #" + r.orderId + " started. Stage: " + r.stage.Label(), env);
    }

    method UpdateProductionJob(id: string, patch: ProductionJobPatch, env: Env) returns (r: Option<ProductionJob>)
      modifies db
      ensures db.Data() == UpdateProductionJobEffect(old(db.Data()), id, patch, env)
      ensures r == FindFirst(db.productionJobs, ProductionJobKey, id)
    {
      r := db.UpdateProductionJob(id, patch, env.now);
    }

    method AddDispatch(disp: Dispatch, env: Env) returns (r: Dispatch)
      modifies db
      ensures r == disp.(id := NewId("DISP", env))
      ensures db.Data() == AddDispatchEffect(old(db.Data()), user, disp, env)
    {
      r := db.AddDispatch(disp, env.random36, env.now);
      LogAction("Order Dispatched", "Order #" + r.orderId + " dispatched.", env);
    }

    method AddInstallation(inst: Installation, env: Env) returns (r: Installation)
      modifies db
      ensures r == inst.(id := NewId("INST", env))
      ensures db.Data() == AddInstallationEffect(old(db.Data()), user, inst, env)
    {
      r := db.AddInstallation(inst, env.random36, env.now);
      LogAction("Installation Scheduled", "Installation for order #" + r.orderId + " scheduled.", env);
    }

    /** Logs only when the payload's status is `Completed`; that log reads the
        updated installation's order, so it throws when none is stored under
        the id. */
    method UpdateInstallation(id: string, patch: InstallationPatch, env: Env) returns (r: Result<Option<Installation>>)
      modifies db
      ensures db.Data() == UpdateInstallationEffect(old(db.Data()), user, id, patch, env)
      ensures var found := FindFirst(db.installations, InstallationKey, id);
        if patch.status == Some(InstallationStatus.Completed) && found.None? then r.Err? else r == Ok(found)
    {
      var updated := db.UpdateInstallation(id, patch, env.now);
      if patch.status == Some(InstallationStatus.Completed) {
        if updated.None? {
          return Err("TypeError: Cannot read properties of undefined (reading 'orderId')");
        }
        LogAction("Installation Completed", "Installation for order #" + updated.value.orderId + " completed.", env);
      }
      r := Ok(updated);
    }

    method AddWarrantyClaim(w: WarrantyClaim, env: Env) returns (r: WarrantyClaim)
      modifies db
      ensures r == w.(id := NewId("WARR", env))
      ensures db.Data() == AddWarrantyClaimEffect(old(db.Data()), user, w, env)
    {
      r := db.AddWarrantyClaim(w, env.random36, env.now);
      LogAction("Warranty Claim Opened", "New claim for order #" + r.orderId + ".", env);
    }

    method UpdateWarrantyClaim(id: string, patch: WarrantyClaimPatch, env: Env) returns (r: Option<WarrantyClaim>)
      modifies db
      ensures db.Data() == UpdateWarrantyClaimEffect(old(db.Data()), id, patch, env)
      ensures r == FindFirst(db.warrantyClaims, WarrantyClaimKey, id)
    {
      r := db.UpdateWarrantyClaim(id, patch, env.now);
    }

    /** `getFreshData`. */
    method GetFreshData() returns (d: AppData)
      ensures d == db.Data()
    {
      d := db.GetInitialData();
    }

    /** `loadBackup`: the store becomes the backup, then one `Data Restore` entry. */
    method LoadBackup(backup: AppData, env: Env)
      modifies db
      ensures db.Data() == LoadBackupEffect(backup, user, env)
    {
      db.SetInitialData(backup, env.now);
      LogAction("Data Restore", "Application data restored from backup.", env);
    }

    /** `resetData`: once confirmed, the store becomes a fresh copy of the seed
        and one `System Reset` entry is logged; declined, nothing changes. */
    method ResetData(confirmed: bool, loadTime: string, env: Env)
      modifies db
      ensures db.Data() == ResetDataEffect(old(db.Data()), user, confirmed, loadTime, env)
    {
      if confirmed {
        db.SetInitialData(SeedData(loadTime), env.now);
        LogAction("System Reset", "All application data has been reset to default.", env);
      }
    }

    /** `addToCatalog`: import, then log the number of items submitted. */
    method AddToCatalog(items: seq<CatalogItem>, env: Env)
      modifies db
      ensures db.Data() == AddToCatalogEffect(old(db.Data()), user, items, env)
    {
      db.AddToCatalog(items, env.now);
      LogAction("Catalog Imported", Text.NatText(|items|) + " new items added to the catalog from CSV.", env);
    }
  }
}
