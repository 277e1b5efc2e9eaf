/** The entity store (`services/api.ts`): one module-level record of
    collections that every operation changes in place and then persists,
    recording the day's stock value on the way. The browser storage, the
    subscriber broadcast, the clock and `Math.random` are not modelled: the
    clock is the `now` parameter (an ISO-8601 instant) and the random draw is
    the `random36` parameter (the text of `Math.random().toString(36)`). */
module Api {
  import opened Types
  import opened Collections
  import opened Patches
  import opened Valuation
  import Text

  // ---------------------------------------------------------------- ids

  /** `${prefix}-${random.toString(36).substr(2, 9).toUpperCase()}`: the prefix,
      a dash and at most nine characters of the draw, with no lower-case letter. */
  function GenerateId(prefix: string, random36: string): (id: string)
    ensures Text.StartsWith(id, prefix + "-")
    ensures |prefix| + 1 <= |id| <= |prefix| + 10
    ensures forall i :: |prefix| + 1 <= i < |id| ==> !('a' <= id[i] <= 'z')
  {
    var lo := if |random36| < 2 then |random36| else 2;
    var hi := if |random36| < 11 then |random36| else 11;
    var id := prefix + "-" + Text.Upper(random36[lo..hi]);
    assert id[..|prefix + "-"|] == prefix + "-";
    id
  }

  /** A draw `0.` followed by at least nine digits gives exactly nine id characters. */
  lemma GenerateIdLength(prefix: string, random36: string)
    requires |random36| >= 11
    ensures |GenerateId(prefix, random36)| == |prefix| + 10
  {
  }

  // ---------------------------------------------------------------- keys

  function EnquiryKey(e: Enquiry): string { e.id }
  function QuotationKey(q: Quotation): string { q.id }
  function SalesOrderKey(o: SalesOrder): string { o.id }
  function ItemKey(i: InventoryItem): string { i.id }
  function CustomerKey(c: Customer): string { c.id }
  function SupplierKey(s: Supplier): string { s.id }
  function PurchaseOrderKey(p: PurchaseOrder): string { p.id }
  function ProductionJobKey(j: ProductionJob): string { j.id }
  function InstallationKey(i: Installation): string { i.id }
  function WarrantyClaimKey(w: WarrantyClaim): string { w.id }

  // ---------------------------------------------------------------- seed

  /** The seed store: every collection empty except one start-up log entry
      stamped with the load time. */
  function SeedData(loadTime: string): (d: AppData)
    ensures d.enquiries == [] && d.quotations == [] && d.salesOrders == [] && d.customers == []
    ensures d.suppliers == [] && d.inventory == [] && d.purchaseOrders == [] && d.productionJobs == []
    ensures d.dispatches == [] && d.installations == [] && d.warrantyClaims == []
    ensures d.history == [] && d.catalog == []
    ensures |d.activityLog| == 1 && d.activityLog[0].action == "System Initialized"
    ensures d.activityLog[0].user == "System" && d.activityLog[0].timestamp == loadTime
  {
    AppData([], [], [], [], [], [], [], [], [], [], [],
            [ActivityLog("LOG-001", loadTime, "System", "System Initialized", "Application ready.")], [], [])
  }

  // ---------------------------------------------------------------- stock value

  /** `inventory.reduce((sum, item) => sum + item.quantity * item.cost, 0)`. */
  method StockValue(items: seq<InventoryItem>) returns (v: real)
    ensures v == InventoryValue(items)
  {
    v := 0.0;
    var i := 0;
    while i < |items|
      invariant 0 <= i <= |items|
      invariant v == InventoryValue(items[..i])
    {
      assert items[..i + 1][..i] == items[..i];
      v := v + ItemValue(items[i]);
      i := i + 1;
    }
    assert items[..i] == items;
  }

  // ---------------------------------------------------------------- quotation cascade

  /** The enquiries after a quotation for `enquiryId` is added: the first
      enquiry with that id becomes `Quoted`. */
  function MarkQuoted(enquiries: seq<Enquiry>, enquiryId: string): (r: seq<Enquiry>)
    ensures |r| == |enquiries|
  {
    match FirstIndex(enquiries, EnquiryKey, enquiryId)
    case None => enquiries
    case Some(k) => enquiries[k := enquiries[k].(status := Quoted)]
  }

  /** Only the status of the enquiry the quotation references changes, to
      `Quoted`; every other enquiry is kept, and a missing enquiry changes
      nothing. */
  lemma MarkQuotedEffect(enquiries: seq<Enquiry>, enquiryId: string, j: int)
    requires 0 <= j < |enquiries|
    ensures var r := MarkQuoted(enquiries, enquiryId);
      r[j] == if FirstIndex(enquiries, EnquiryKey, enquiryId) == Some(j)
              then enquiries[j].(status := Quoted) else enquiries[j]
    ensures FirstIndex(enquiries, EnquiryKey, enquiryId) == Some(j) ==> enquiries[j].id == enquiryId
    ensures (forall e :: e in enquiries ==> e.id != enquiryId) ==> MarkQuoted(enquiries, enquiryId) == enquiries
  {
    if forall e :: e in enquiries ==> e.id != enquiryId {
      assert forall k :: 0 <= k < |enquiries| ==> EnquiryKey(enquiries[k]) != enquiryId;
    }
  }

  // ---------------------------------------------------------------- purchase-order receipt

  /** Crediting one purchase-order line: the first inventory item with the
      line's id gains the line's quantity; an unknown id is skipped. */
  function Credit(inv: seq<InventoryItem>, line: PurchaseOrderItem): seq<InventoryItem> {
    match FirstIndex(inv, ItemKey, line.inventoryItemId)
    case None => inv
    case Some(k) => inv[k := inv[k].(quantity := inv[k].quantity + line.quantity)]
  }

  /** Crediting the lines of a received purchase order, one after another. */
  function Receive(inv: seq<InventoryItem>, lines: seq<PurchaseOrderItem>): (r: seq<InventoryItem>)
    ensures |r| == |inv|
    decreases |lines|
  {
    if lines == [] then inv
    else Credit(Receive(inv, lines[..|lines| - 1]), lines[|lines| - 1])
  }

  /** Receipt changes nothing but quantities. */
  lemma {:induction false} ReceiveKeepsItems(inv: seq<InventoryItem>, lines: seq<PurchaseOrderItem>)
    ensures forall j :: 0 <= j < |inv| ==> Receive(inv, lines)[j] == inv[j].(quantity := Receive(inv, lines)[j].quantity)
    decreases |lines|
  {
    if lines != [] {
      ReceiveKeepsItems(inv, lines[..|lines| - 1]);
    }
  }

  /** Receiving one more line credits it after the earlier ones. */
  lemma ReceiveStep(inv: seq<InventoryItem>, lines: seq<PurchaseOrderItem>, i: int)
    requires 0 <= i < |lines|
    ensures Receive(inv, lines[..i + 1]) == Credit(Receive(inv, lines[..i]), lines[i])
  {
    assert lines[..i + 1][..i] == lines[..i];
  }

  /** The receipt loop on the stock list: each line in turn credits the first
      item with its id. */
  method CreditEach(inventory: seq<InventoryItem>, lines: seq<PurchaseOrderItem>) returns (inv: seq<InventoryItem>)
    ensures inv == Receive(inventory, lines)
  {
    inv := inventory;
    var i := 0;
    while i < |lines|
      invariant 0 <= i <= |lines|
      invariant inv == Receive(inventory, lines[..i])
    {
      ReceiveStep(inventory, lines, i);
      var k := FirstIndex(inv, ItemKey, lines[i].inventoryItemId);
      if k.Some? {
        var item := inv[k.value];
        inv := inv[k.value := item.(quantity := item.quantity + lines[i].quantity)];
      }
      i := i + 1;
    }
    assert lines[..i] == lines;
  }

  /** The total quantity the lines order of item `id`. */
  function LinesQuantity(lines: seq<PurchaseOrderItem>, id: string): real
    decreases |lines|
  {
    if lines == [] then 0.0
    else LinesQuantity(lines[..|lines| - 1], id)
         + (if lines[|lines| - 1].inventoryItemId == id then lines[|lines| - 1].quantity else 0.0)
  }

  lemma SameKeysSameFirstIndex(s: seq<InventoryItem>, t: seq<InventoryItem>, id: string)
    requires |s| == |t| && forall j :: 0 <= j < |s| ==> s[j].id == t[j].id
    ensures FirstIndex(s, ItemKey, id) == FirstIndex(t, ItemKey, id)
  {
    assert forall j :: 0 <= j < |s| ==> ItemKey(s[j]) == ItemKey(t[j]);
    match FirstIndex(s, ItemKey, id)
    case None =>
    case Some(k) =>
      assert ItemKey(t[k]) == id;
  }

  /** Receipt credits each item that is the first with its id by the total
      quantity of the lines naming that id (so an id on two lines gets both),
      changes no other item, and changes nothing but quantities. */
  lemma {:induction false} ReceiveEffect(inv: seq<InventoryItem>, lines: seq<PurchaseOrderItem>, k: int)
    requires 0 <= k < |inv|
    ensures Receive(inv, lines)[k].quantity == inv[k].quantity +
      (if FirstIndex(inv, ItemKey, inv[k].id) == Some(k) then LinesQuantity(lines, inv[k].id) else 0.0)
    decreases |lines|
  {
    if lines != [] {
      var prefix := lines[..|lines| - 1];
      var line := lines[|lines| - 1];
      var m := Receive(inv, prefix);
      ReceiveKeepsItems(inv, prefix);
      ReceiveEffect(inv, prefix, k);
      SameKeysSameFirstIndex(m, inv, line.inventoryItemId);
      SameKeysSameFirstIndex(m, inv, inv[k].id);
    }
  }

  /** What `updatePurchaseOrder` leaves behind: the merged orders, the stock,
      the order now stored under the id (`None` when the payload moved the
      order off its id or no order had it), and whether the call throws. It
      throws when no order is left under the id and the stored order was not
      already `Received`: only then does the guard read the status of the
      missing order. */
  datatype PurchaseOrderUpdate = PurchaseOrderUpdate(
    purchaseOrders: seq<PurchaseOrder>,
    inventory: seq<InventoryItem>,
    updated: Option<PurchaseOrder>,
    throws: bool)

  /** The stored order was `Received` before the update. */
  predicate WasReceived(original: Option<PurchaseOrder>) {
    original.Some? && original.value.status == PurchaseOrderStatus.Received
  }

  /** Receipt is credited exactly when the order moves into `Received`: the
      stored order was not `Received` before the merge and is after it. */
  predicate CreditsStock(original: Option<PurchaseOrder>, updated: PurchaseOrder) {
    (original.None? || original.value.status != PurchaseOrderStatus.Received)
    && updated.status == PurchaseOrderStatus.Received
  }

  /** `updatePurchaseOrder`: merge the payload into the orders with the id,
      then, if an order is still stored under the id, credit its lines to
      stock on a transition into `Received`. */
  function UpdatePurchaseOrders(pos: seq<PurchaseOrder>, inv: seq<InventoryItem>, id: string, patch: PurchaseOrderPatch)
    : (r: PurchaseOrderUpdate)
    ensures |r.purchaseOrders| == |pos|
    ensures FindFirst(pos, PurchaseOrderKey, id).None? ==> r.updated.None? && r.throws && r.purchaseOrders == pos && r.inventory == inv
    ensures r.updated.Some? ==> r.updated.value.id == id && r.updated.value in r.purchaseOrders
    ensures r.inventory != inv ==> r.updated.Some? && CreditsStock(FindFirst(pos, PurchaseOrderKey, id), r.updated.value)
    ensures r.throws <==> r.updated.None? && !WasReceived(FindFirst(pos, PurchaseOrderKey, id))
  {
    var original := FindFirst(pos, PurchaseOrderKey, id);
    var merged := MapWhere(pos, PurchaseOrderKey, id, po => MergePurchaseOrder(po, patch));
    if original.None? then
      MapWhereUnknownId(pos, PurchaseOrderKey, id, po => MergePurchaseOrder(po, patch));
      PurchaseOrderUpdate(merged, inv, None, true)
    else match FindFirst(merged, PurchaseOrderKey, id)
      case None => PurchaseOrderUpdate(merged, inv, None, !WasReceived(original))
      case Some(u) =>
        PurchaseOrderUpdate(merged, if CreditsStock(original, u) then Receive(inv, u.items) else inv, Some(u), false)
  }

  /** Receipt happens once: when the stored order is already `Received`, an
      update, even one that sets `Received` again, changes no stock. */
  lemma AlreadyReceivedCreditsNothing(pos: seq<PurchaseOrder>, inv: seq<InventoryItem>, id: string, patch: PurchaseOrderPatch)
    requires FindFirst(pos, PurchaseOrderKey, id).Some?
    requires FindFirst(pos, PurchaseOrderKey, id).value.status == PurchaseOrderStatus.Received
    ensures UpdatePurchaseOrders(pos, inv, id, patch).inventory == inv
  {
  }

  /** A payload that moves an already `Received` order off its id does not
      throw: nothing is left under the id, no stock moves, and the call goes on
      to persist. */
  lemma ReceivedMovedOffIdDoesNotThrow(pos: seq<PurchaseOrder>, inv: seq<InventoryItem>, id: string, patch: PurchaseOrderPatch)
    requires WasReceived(FindFirst(pos, PurchaseOrderKey, id))
    requires patch.id.Some? && patch.id.value != id
    ensures var u := UpdatePurchaseOrders(pos, inv, id, patch);
      !u.throws && u.updated.None? && u.inventory == inv
  {
    var f := po => MergePurchaseOrder(po, patch);
    var merged := MapWhere(pos, PurchaseOrderKey, id, f);
    assert forall j :: 0 <= j < |merged| ==> PurchaseOrderKey(merged[j]) != id;
  }

  /** A payload that keeps the id and sets `Received` leaves the order stored
      as `Received`, so the same update made twice credits stock only once. */
  lemma ReceiveTwiceCreditsOnce(pos: seq<PurchaseOrder>, inv: seq<InventoryItem>, id: string, patch: PurchaseOrderPatch)
    requires patch.status == Some(PurchaseOrderStatus.Received)
    requires patch.id.None? || patch.id == Some(id)
    requires FindFirst(pos, PurchaseOrderKey, id).Some?
    ensures var first := UpdatePurchaseOrders(pos, inv, id, patch);
      var second := UpdatePurchaseOrders(first.purchaseOrders, first.inventory, id, patch);
      first.updated.Some? && second.updated.Some? && second.inventory == first.inventory
  {
    var f := po => MergePurchaseOrder(po, patch);
    assert forall po :: PurchaseOrderKey(po) == id ==> PurchaseOrderKey(f(po)) == id;
    var first := UpdatePurchaseOrders(pos, inv, id, patch);
    MapWhereFirstIndex(pos, PurchaseOrderKey, id, f);
    var merged := MapWhere(pos, PurchaseOrderKey, id, f);
    var k := FirstIndex(merged, PurchaseOrderKey, id).value;
    assert merged[k] == f(pos[k]);
    assert FindFirst(first.purchaseOrders, PurchaseOrderKey, id).value.status == PurchaseOrderStatus.Received;
    MapWhereFirstIndex(first.purchaseOrders, PurchaseOrderKey, id, f);
  }

  // ---------------------------------------------------------------- catalog import

  /** Some catalog entry has `code`, ignoring case. */
  predicate HasCode(catalog: seq<CatalogItem>, code: string) {
    exists k :: 0 <= k < |catalog| && Text.Lower(catalog[k].code) == Text.Lower(code)
  }

  /** `addToCatalog`: each item in turn is appended unless its code is
      already present, ignoring case, including codes appended earlier in the
      same batch. */
  function CatalogMerge(catalog: seq<CatalogItem>, items: seq<CatalogItem>): (r: seq<CatalogItem>)
    ensures |catalog| <= |r| <= |catalog| + |items| && r[..|catalog|] == catalog
    ensures forall k :: |catalog| <= k < |r| ==> r[k] in items
    decreases |items|
  {
    if items == [] then catalog
    else
      var m := CatalogMerge(catalog, items[..|items| - 1]);
      if HasCode(m, items[|items| - 1].code) then m else m + [items[|items| - 1]]
  }

  /** An import whose every code is already present, ignoring case, leaves
      the catalog as it was. */
  lemma {:induction false} CatalogMergeKnownCodes(catalog: seq<CatalogItem>, items: seq<CatalogItem>)
    requires forall i :: 0 <= i < |items| ==> HasCode(catalog, items[i].code)
    ensures CatalogMerge(catalog, items) == catalog
    decreases |items|
  {
    if items != [] {
      CatalogMergeKnownCodes(catalog, items[..|items| - 1]);
      assert HasCode(catalog, items[|items| - 1].code);
    }
  }

  /** Codes unique ignoring case. */
  predicate UniqueCodes(catalog: seq<CatalogItem>) {
    forall i, j :: 0 <= i < j < |catalog| ==> Text.Lower(catalog[i].code) != Text.Lower(catalog[j].code)
  }

  /** An import keeps the catalog's codes unique, ignoring case. */
  lemma {:induction false} CatalogMergeUnique(catalog: seq<CatalogItem>, items: seq<CatalogItem>)
    requires UniqueCodes(catalog)
    ensures UniqueCodes(CatalogMerge(catalog, items))
    decreases |items|
  {
    if items != [] {
      CatalogMergeUnique(catalog, items[..|items| - 1]);
    }
  }

  /** After an import every submitted code is in the catalog, ignoring case. */
  lemma {:induction false} CatalogMergeCovers(catalog: seq<CatalogItem>, items: seq<CatalogItem>, j: int)
    requires 0 <= j < |items|
    ensures HasCode(CatalogMerge(catalog, items), items[j].code)
    decreases |items|
  {
    var m := CatalogMerge(catalog, items[..|items| - 1]);
    var r := CatalogMerge(catalog, items);
    if j < |items| - 1 {
      CatalogMergeCovers(catalog, items[..|items| - 1], j);
      var k :| 0 <= k < |m| && Text.Lower(m[k].code) == Text.Lower(items[..|items| - 1][j].code);
      assert r[k] == m[k];
    } else if !HasCode(m, items[j].code) {
      assert r[|m|] == items[j];
    }
  }

  /** The batch read front to back: an item is kept when its code is neither in
      the catalog nor among the items kept before it. */
  function FreshItems(existing: seq<CatalogItem>, items: seq<CatalogItem>): seq<CatalogItem>
    decreases |items|
  {
    if items == [] then []
    else if HasCode(existing, items[0].code) then FreshItems(existing, items[1..])
    else [items[0]] + FreshItems(existing + [items[0]], items[1..])
  }

  lemma {:induction false} CatalogMergeSplit(catalog: seq<CatalogItem>, a: seq<CatalogItem>, b: seq<CatalogItem>)
    ensures CatalogMerge(catalog, a + b) == CatalogMerge(CatalogMerge(catalog, a), b)
    decreases |b|
  {
    if b == [] {
      assert a + b == a;
    } else {
      assert (a + b)[..|a + b| - 1] == a + b[..|b| - 1];
      CatalogMergeSplit(catalog, a, b[..|b| - 1]);
    }
  }

  /** The import appends to the catalog exactly the fresh items of the
      batch, in batch order. */
  lemma {:induction false} CatalogMergeAppendsFresh(catalog: seq<CatalogItem>, items: seq<CatalogItem>)
    ensures CatalogMerge(catalog, items) == catalog + FreshItems(catalog, items)
    decreases |items|
  {
    if items != [] {
      var x := items[0];
      CatalogMergeSplit(catalog, [x], items[1..]);
      assert [x] + items[1..] == items;
      var one := CatalogMerge(catalog, [x]);
      assert CatalogMerge(catalog, [x][..0]) == catalog by { assert [x][..0] == []; }
      CatalogMergeAppendsFresh(one, items[1..]);
      if !HasCode(catalog, x.code) {
        assert one == catalog + [x];
      }
    }
  }

  // ---------------------------------------------------------------- activity log

  /** The store after `addActivityLog` appended `entry` and persisted. */
  function WithLog(d: AppData, entry: ActivityLog, today: string): (r: AppData)
    ensures r.activityLog == d.activityLog + [entry]
    ensures r.(activityLog := d.activityLog, history := d.history) == d
  {
    Persisted(d.(activityLog := d.activityLog + [entry]), today)
  }

  // ---------------------------------------------------------------- the store

  /** The module-level `DB` record: one field per collection, reassigned or
      extended in place by each operation. */
  class Database {
    var enquiries: seq<Enquiry>
    var quotations: seq<Quotation>
    var salesOrders: seq<SalesOrder>
    var customers: seq<Customer>
    var suppliers: seq<Supplier>
    var inventory: seq<InventoryItem>
    var purchaseOrders: seq<PurchaseOrder>
    var productionJobs: seq<ProductionJob>
    var dispatches: seq<Dispatch>
    var installations: seq<Installation>
    var warrantyClaims: seq<WarrantyClaim>
    var activityLog: seq<ActivityLog>
    var history: seq<HistoryEntry>
    var catalog: seq<CatalogItem>

    /** The whole store as a value. */
    function Data(): AppData
      reads this
    {
      AppData(enquiries, quotations, salesOrders, customers, suppliers, inventory, purchaseOrders,
              productionJobs, dispatches, installations, warrantyClaims, activityLog, history, catalog)
    }

    /** Start-up: the saved store when there is one, the seed otherwise. */
    constructor (saved: Option<AppData>, seed: AppData)
      ensures Data() == if saved.Some? then saved.value else seed
    {
      var d := if saved.Some? then saved.value else seed;
      enquiries, quotations, salesOrders, customers, suppliers := d.enquiries, d.quotations, d.salesOrders, d.customers, d.suppliers;
      inventory, purchaseOrders, productionJobs, dispatches := d.inventory, d.purchaseOrders, d.productionJobs, d.dispatches;
      installations, warrantyClaims, activityLog, history, catalog := d.installations, d.warrantyClaims, d.activityLog, d.history, d.catalog;
    }

    /** `persist`: record the day's stock value, then save. */
    method Persist(now: string)
      modifies this
      ensures Data() == Persisted(old(Data()), DateOf(now))
    {
      var today := DateOf(now);
      var value := StockValue(inventory);
      if history == [] || history[|history| - 1].date != today {
        history := history + [HistoryEntry(today, value)];
        if |history| > HistoryWindow {
          history := history[1..];
        }
      } else {
        history := history[..|history| - 1] + [history[|history| - 1].(value := value)];
      }
    }

    /** `getInitialData`: the store's value at the call. The source's spread is
        shallow, so its arrays are the store's own; the aliasing this causes
        is modelled in the `ResetAliasing` module. */
    method GetInitialData() returns (d: AppData)
      ensures d == Data()
    {
      d := Data();
    }

    /** `DB = data`. */
    method Replace(d: AppData)
      modifies this
      ensures Data() == d
    {
      ReplaceSales(d);
      ReplaceOperations(d);
    }

    method ReplaceSales(d: AppData)
      modifies this
      ensures enquiries == d.enquiries && quotations == d.quotations && salesOrders == d.salesOrders
      ensures customers == d.customers && suppliers == d.suppliers && inventory == d.inventory
      ensures purchaseOrders == d.purchaseOrders
      ensures productionJobs == old(productionJobs) && dispatches == old(dispatches)
      ensures installations == old(installations) && warrantyClaims == old(warrantyClaims)
      ensures activityLog == old(activityLog) && history == old(history) && catalog == old(catalog)
    {
      enquiries, quotations, salesOrders, customers := d.enquiries, d.quotations, d.salesOrders, d.customers;
      suppliers, inventory, purchaseOrders := d.suppliers, d.inventory, d.purchaseOrders;
    }

    method ReplaceOperations(d: AppData)
      modifies this
      ensures enquiries == old(enquiries) && quotations == old(quotations) && salesOrders == old(salesOrders)
      ensures customers == old(customers) && suppliers == old(suppliers) && inventory == old(inventory)
      ensures purchaseOrders == old(purchaseOrders)
      ensures productionJobs == d.productionJobs && dispatches == d.dispatches
      ensures installations == d.installations && warrantyClaims == d.warrantyClaims
      ensures activityLog == d.activityLog && history == d.history && catalog == d.catalog
    {
      productionJobs, dispatches, installations, warrantyClaims := d.productionJobs, d.dispatches, d.installations, d.warrantyClaims;
      activityLog, history, catalog := d.activityLog, d.history, d.catalog;
    }

    /** `setInitialData`: the store becomes `d`, then persists. */
    method SetInitialData(d: AppData, now: string)
      modifies this
      ensures Data() == Persisted(d, DateOf(now))
    {
      Replace(d);
      Persist(now);
    }

    // ---------------------------------------------------------------- enquiries

    method AddEnquiry(e: Enquiry, random36: string, now: string) returns (r: Enquiry)
      modifies this
      ensures r == e.(id := GenerateId("ENQ", random36))
      ensures Data() == Persisted(old(Data()).(enquiries := old(enquiries) + [r]), DateOf(now))
    {
      r := e.(id := GenerateId("ENQ", random36));
      enquiries := enquiries + [r];
      Persist(now);
    }

    method UpdateEnquiry(id: string, patch: EnquiryPatch, now: string) returns (r: Option<Enquiry>)
      modifies this
      ensures Data() == Persisted(old(Data()).(enquiries := MapWhere(old(enquiries), EnquiryKey, id, e => MergeEnquiry(e, patch))), DateOf(now))
      ensures r == FindFirst(enquiries, EnquiryKey, id)
    {
      enquiries := MapWhere(enquiries, EnquiryKey, id, e => MergeEnquiry(e, patch));
      Persist(now);
      r := FindFirst(enquiries, EnquiryKey, id);
    }

    // ---------------------------------------------------------------- quotations

    /** `addQuotation`: append, and mark the referenced enquiry `Quoted`. */
    method AddQuotation(q: Quotation, random36: string, now: string) returns (r: Quotation)
      modifies this
      ensures r == q.(id := GenerateId("QT", random36))
      ensures Data() == Persisted(old(Data()).(quotations := old(quotations) + [r],
                                               enquiries := MarkQuoted(old(enquiries), q.enquiryId)), DateOf(now))
    {
      r := q.(id := GenerateId("QT", random36));
      quotations := quotations + [r];
      var k := FirstIndex(enquiries, EnquiryKey, r.enquiryId);
      if k.Some? {
        enquiries := enquiries[k.value := enquiries[k.value].(status := Quoted)];
      }
      Persist(now);
    }

    method UpdateQuotation(id: string, patch: QuotationPatch, now: string) returns (r: Option<Quotation>)
      modifies this
      ensures Data() == Persisted(old(Data()).(quotations := MapWhere(old(quotations), QuotationKey, id, q => MergeQuotation(q, patch))), DateOf(now))
      ensures r == FindFirst(quotations, QuotationKey, id)
    {
      quotations := MapWhere(quotations, QuotationKey, id, q => MergeQuotation(q, patch));
      Persist(now);
      r := FindFirst(quotations, QuotationKey, id);
    }

    // ---------------------------------------------------------------- sales orders

    method AddSalesOrder(o: SalesOrder, random36: string, now: string) returns (r: SalesOrder)
      modifies this
      ensures r == o.(id := GenerateId("SO", random36))
      ensures Data() == Persisted(old(Data()).(salesOrders := old(salesOrders) + [r]), DateOf(now))
    {
      r := o.(id := GenerateId("SO", random36));
      salesOrders := salesOrders + [r];
      Persist(now);
    }

    method UpdateSalesOrder(id: string, patch: SalesOrderPatch, now: string) returns (r: Option<SalesOrder>)
      modifies this
      ensures Data() == Persisted(old(Data()).(salesOrders := MapWhere(old(salesOrders), SalesOrderKey, id, o => MergeSalesOrder(o, patch))), DateOf(now))
      ensures r == FindFirst(salesOrders, SalesOrderKey, id)
    {
      salesOrders := MapWhere(salesOrders, SalesOrderKey, id, o => MergeSalesOrder(o, patch));
      Persist(now);
      r := FindFirst(salesOrders, SalesOrderKey, id);
    }

    // ---------------------------------------------------------------- inventory

    method AddInventoryItem(item: InventoryItem, random36: string, now: string) returns (r: InventoryItem)
      modifies this
      ensures r == item.(id := GenerateId("INV", random36))
      ensures Data() == Persisted(old(Data()).(inventory := old(inventory) + [r]), DateOf(now))
    {
      r := item.(id := GenerateId("INV", random36));
      inventory := inventory + [r];
      Persist(now);
    }

    method UpdateInventoryItem(id: string, patch: InventoryPatch, now: string) returns (r: Option<InventoryItem>)
      modifies this
      ensures Data() == Persisted(old(Data()).(inventory := MapWhere(old(inventory), ItemKey, id, i => MergeInventoryItem(i, patch))), DateOf(now))
      ensures r == FindFirst(inventory, ItemKey, id)
    {
      inventory := MapWhere(inventory, ItemKey, id, i => MergeInventoryItem(i, patch));
      Persist(now);
      r := FindFirst(inventory, ItemKey, id);
    }

    method DeleteInventoryItem(id: string, now: string)
      modifies this
      ensures Data() == Persisted(old(Data()).(inventory := FilterOut(old(inventory), ItemKey, id)), DateOf(now))
    {
      inventory := FilterOut(inventory, ItemKey, id);
      Persist(now);
    }

    // ---------------------------------------------------------------- customers

    method AddCustomer(c: Customer, random36: string, now: string) returns (r: Customer)
      modifies this
      ensures r == c.(id := GenerateId("CUST", random36))
      ensures Data() == Persisted(old(Data()).(customers := old(customers) + [r]), DateOf(now))
    {
      r := c.(id := GenerateId("CUST", random36));
      customers := customers + [r];
      Persist(now);
    }

    method UpdateCustomer(id: string, patch: CustomerPatch, now: string) returns (r: Option<Customer>)
      modifies this
      ensures Data() == Persisted(old(Data()).(customers := MapWhere(old(customers), CustomerKey, id, c => MergeCustomer(c, patch))), DateOf(now))
      ensures r == FindFirst(customers, CustomerKey, id)
    {
      customers := MapWhere(customers, CustomerKey, id, c => MergeCustomer(c, patch));
      Persist(now);
      r := FindFirst(customers, CustomerKey, id);
    }

    method DeleteCustomer(id: string, now: string)
      modifies this
      ensures Data() == Persisted(old(Data()).(customers := FilterOut(old(customers), CustomerKey, id)), DateOf(now))
    {
      customers := FilterOut(customers, CustomerKey, id);
      Persist(now);
    }

    // ---------------------------------------------------------------- suppliers

    method AddSupplier(s: Supplier, random36: string, now: string) returns (r: Supplier)
      modifies this
      ensures r == s.(id := GenerateId("SUP", random36))
      ensures Data() == Persisted(old(Data()).(suppliers := old(suppliers) + [r]), DateOf(now))
    {
      r := s.(id := GenerateId("SUP", random36));
      suppliers := suppliers + [r];
      Persist(now);
    }

    method UpdateSupplier(id: string, patch: SupplierPatch, now: string) returns (r: Option<Supplier>)
      modifies this
      ensures Data() == Persisted(old(Data()).(suppliers := MapWhere(old(suppliers), SupplierKey, id, s => MergeSupplier(s, patch))), DateOf(now))
      ensures r == FindFirst(suppliers, SupplierKey, id)
    {
      suppliers := MapWhere(suppliers, SupplierKey, id, s => MergeSupplier(s, patch));
      Persist(now);
      r := FindFirst(suppliers, SupplierKey, id);
    }

    method DeleteSupplier(id: string, now: string)
      modifies this
      ensures Data() == Persisted(old(Data()).(suppliers := FilterOut(old(suppliers), SupplierKey, id)), DateOf(now))
    {
      suppliers := FilterOut(suppliers, SupplierKey, id);
      Persist(now);
    }

    // ---------------------------------------------------------------- purchase orders

    method AddPurchaseOrder(po: PurchaseOrder, random36: string, now: string) returns (r: PurchaseOrder)
      modifies this
      ensures r == po.(id := GenerateId("PO", random36))
      ensures Data() == Persisted(old(Data()).(purchaseOrders := old(purchaseOrders) + [r]), DateOf(now))
    {
      r := po.(id := GenerateId("PO", random36));
      purchaseOrders := purchaseOrders + [r];
      Persist(now);
    }

    /** `updatePurchaseOrder`: merge, then credit each line to stock on the
      transition into `Received`, then persist and return the order now under
      the id. When no order is left under the id, the guard short-circuits on
      an order that was already `Received` (persisting and returning nothing);
      otherwise it reads the status of the missing order and throws before
      persisting, keeping the merge. */
    method UpdatePurchaseOrder(id: string, patch: PurchaseOrderPatch, now: string) returns (r: Result<Option<PurchaseOrder>>)
      modifies this
      ensures var u := UpdatePurchaseOrders(old(purchaseOrders), old(inventory), id, patch);
        if u.throws then (r.Err? && Data() == old(Data()).(purchaseOrders := u.purchaseOrders))
        else (r == Ok(u.updated)
          && Data() == Persisted(old(Data()).(purchaseOrders := u.purchaseOrders, inventory := u.inventory), DateOf(now)))
    {
      var original := FindFirst(purchaseOrders, PurchaseOrderKey, id);
      purchaseOrders := MapWhere(purchaseOrders, PurchaseOrderKey, id, po => MergePurchaseOrder(po, patch));
      var found := FindFirst(purchaseOrders, PurchaseOrderKey, id);
      if !WasReceived(original) && found.None? {
        return Err("TypeError: Cannot read properties of undefined (reading 'status')");
      }
      if found.Some? && CreditsStock(original, found.value) {
        CreditLines(found.value.items);
      }
      Persist(now);
      r := Ok(found);
    }

    /** The receipt loop: each line in turn credits the first item with its id. */
    method CreditLines(lines: seq<PurchaseOrderItem>)
      modifies this
      ensures Data() == old(Data()).(inventory := Receive(old(inventory), lines))
    {
      inventory := CreditEach(inventory, lines);
    }

    // ---------------------------------------------------------------- production

    method AddProductionJob(job: ProductionJob, random36: string, now: string) returns (r: ProductionJob)
      modifies this
      ensures r == job.(id := GenerateId("PROD", random36))
      ensures Data() == Persisted(old(Data()).(productionJobs := old(productionJobs) + [r]), DateOf(now))
    {
      r := job.(id := GenerateId("PROD", random36));
      productionJobs := productionJobs + [r];
      Persist(now);
    }

    method UpdateProductionJob(id: string, patch: ProductionJobPatch, now: string) returns (r: Option<ProductionJob>)
      modifies this
      ensures Data() == Persisted(old(Data()).(productionJobs := MapWhere(old(productionJobs), ProductionJobKey, id, j => MergeProductionJob(j, patch))), DateOf(now))
      ensures r == FindFirst(productionJobs, ProductionJobKey, id)
    {
      productionJobs := MapWhere(productionJobs, ProductionJobKey, id, j => MergeProductionJob(j, patch));
      Persist(now);
      r := FindFirst(productionJobs, ProductionJobKey, id);
    }

    // ---------------------------------------------------------------- dispatch

    method AddDispatch(d: Dispatch, random36: string, now: string) returns (r: Dispatch)
      modifies this
      ensures r == d.(id := GenerateId("DISP", random36))
      ensures Data() == Persisted(old(Data()).(dispatches := old(dispatches) + [r]), DateOf(now))
    {
      r := d.(id := GenerateId("DISP", random36));
      dispatches := dispatches + [r];
      Persist(now);
    }

    // ---------------------------------------------------------------- installation

    method AddInstallation(inst: Installation, random36: string, now: string) returns (r: Installation)
      modifies this
      ensures r == inst.(id := GenerateId("INST", random36))
      ensures Data() == Persisted(old(Data()).(installations := old(installations) + [r]), DateOf(now))
    {
      r := inst.(id := GenerateId("INST", random36));
      installations := installations + [r];
      Persist(now);
    }

    method UpdateInstallation(id: string, patch: InstallationPatch, now: string) returns (r: Option<Installation>)
      modifies this
      ensures Data() == Persisted(old(Data()).(installations := MapWhere(old(installations), InstallationKey, id, i => MergeInstallation(i, patch))), DateOf(now))
      ensures r == FindFirst(installations, InstallationKey, id)
    {
      installations := MapWhere(installations, InstallationKey, id, i => MergeInstallation(i, patch));
      Persist(now);
      r := FindFirst(installations, InstallationKey, id);
    }

    // ---------------------------------------------------------------- warranty

    method AddWarrantyClaim(w: WarrantyClaim, random36: string, now: string) returns (r: WarrantyClaim)
      modifies this
      ensures r == w.(id := GenerateId("WARR", random36))
      ensures Data() == Persisted(old(Data()).(warrantyClaims := old(warrantyClaims) + [r]), DateOf(now))
    {
      r := w.(id := GenerateId("WARR", random36));
      warrantyClaims := warrantyClaims + [r];
      Persist(now);
    }

    method UpdateWarrantyClaim(id: string, patch: WarrantyClaimPatch, now: string) returns (r: Option<WarrantyClaim>)
      modifies this
      ensures Data() == Persisted(old(Data()).(warrantyClaims := MapWhere(old(warrantyClaims), WarrantyClaimKey, id, w => MergeWarrantyClaim(w, patch))), DateOf(now))
      ensures r == FindFirst(warrantyClaims, WarrantyClaimKey, id)
    {
      warrantyClaims := MapWhere(warrantyClaims, WarrantyClaimKey, id, w => MergeWarrantyClaim(w, patch));
      Persist(now);
      r := FindFirst(warrantyClaims, WarrantyClaimKey, id);
    }

    // ---------------------------------------------------------------- activity log

    /** `addActivityLog`: stamp the entry with a `LOG` id and the time, append, persist. */
    method AddActivityLog(user: string, action: string, details: string, random36: string, now: string)
      returns (r: ActivityLog)
      modifies this
      ensures r == ActivityLog(GenerateId("LOG", random36), now, user, action, details)
      ensures Data() == WithLog(old(Data()), r, DateOf(now))
    {
      r := ActivityLog(GenerateId("LOG", random36), now, user, action, details);
      activityLog := activityLog + [r];
      Persist(now);
    }

    // ---------------------------------------------------------------- catalog

    /** `addToCatalog`: append each item whose code is new, ignoring case, then persist. */
    method AddToCatalog(items: seq<CatalogItem>, now: string)
      modifies this
      ensures Data() == Persisted(old(Data()).(catalog := CatalogMerge(old(catalog), items)), DateOf(now))
    {
      var i := 0;
      while i < |items|
        invariant 0 <= i <= |items|
        invariant catalog == CatalogMerge(old(catalog), items[..i])
        invariant Data() == old(Data()).(catalog := catalog)
      {
        assert items[..i + 1][..i] == items[..i];
        var present := exists k :: 0 <= k < |catalog| && Text.Lower(catalog[k].code) == Text.Lower(items[i].code);
        if !present {
          catalog := catalog + [items[i]];
        }
        i := i + 1;
      }
      assert items[..i] == items;
      Persist(now);
    }
  }
}
