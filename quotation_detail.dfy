/** The quotation detail page (`pages/enquiries/QuotationDetailPage.tsx`): the
    line costing, the totals kept when a line is added, the approval cascade
    and the actions each status offers. */
module QuotationDetail {
  import opened Types
  import opened Collections
  import opened Patches
  import opened Api
  import opened DataContext
  import Text

  // ---------------------------------------------------------------- costing

  /** The item form: a quotation line before it has an id and a cost. */
  datatype ItemDraft = ItemDraft(
    description: string,
    width: real,
    height: real,
    profileId: string,
    glassId: string,
    hardwareIds: seq<string>,
    quantity: real)

  /** The form as the page opens it. */
  const EmptyDraft := ItemDraft("", 0.0, 0.0, "", "", [], 1.0)

  /** Profile length is charged with this allowance for offcuts. */
  const WastageFactor: real := 1.8
  /** Fabrication is charged as this share of the material cost. */
  const FabricationRate: real := 0.15

  /** The cost of the inventory item with id `id`, or 0 when there is none. */
  function CostOf(inventory: seq<InventoryItem>, id: string): real {
    match FindFirst(inventory, ItemKey, id)
    case None => 0.0
    case Some(item) => item.cost
  }

  /** The hardware sum of one window, taken left to right. */
  function HardwareCost(inventory: seq<InventoryItem>, ids: seq<string>): real
    decreases |ids|
  {
    if ids == [] then 0.0
    else HardwareCost(inventory, ids[..|ids| - 1]) + CostOf(inventory, ids[|ids| - 1])
  }

  /** Cost of one window of `width` x `height` mm with the given rates. */
  function WindowCost(width: real, height: real, profileRate: real, glassRate: real, hardware: real): real {
    var perimeter := 2.0 * (width / 1000.0 + height / 1000.0);
    var glassArea := (width / 1000.0) * (height / 1000.0);
    perimeter * WastageFactor * profileRate + glassArea * glassRate + hardware
  }

  /** `calculateItemCost`: the cost of a line, or 0 when its profile or its
      glass is not in stock. */
  function CalculateItemCost(inventory: seq<InventoryItem>, item: ItemDraft): (c: real)
    ensures FindFirst(inventory, ItemKey, item.profileId).None? ==> c == 0.0
    ensures FindFirst(inventory, ItemKey, item.glassId).None? ==> c == 0.0
  {
    var profile := FindFirst(inventory, ItemKey, item.profileId);
    var glass := FindFirst(inventory, ItemKey, item.glassId);
    if profile.None? || glass.None? then 0.0
    else WindowCost(item.width, item.height, profile.value.cost, glass.value.cost,
                    HardwareCost(inventory, item.hardwareIds)) * item.quantity
  }

  /** An unknown hardware id adds nothing to the hardware sum. */
  lemma UnknownHardwareCostsNothing(inventory: seq<InventoryItem>, ids: seq<string>, unknown: string)
    requires forall j :: 0 <= j < |inventory| ==> inventory[j].id != unknown
    ensures HardwareCost(inventory, ids + [unknown]) == HardwareCost(inventory, ids)
  {
    assert (ids + [unknown])[..|ids|] == ids;
  }

  lemma {:induction false} HardwareCostNonNegative(inventory: seq<InventoryItem>, ids: seq<string>)
    requires forall j :: 0 <= j < |inventory| ==> inventory[j].cost >= 0.0
    ensures HardwareCost(inventory, ids) >= 0.0
    decreases |ids|
  {
    if ids != [] {
      HardwareCostNonNegative(inventory, ids[..|ids| - 1]);
      var found := FindFirst(inventory, ItemKey, ids[|ids| - 1]);
      if found.Some? {
        var k :| 0 <= k < |inventory| && inventory[k] == found.value;
      }
    }
  }

  /** An illustration, not a general property: a 1000 x 1200 mm window with a profile at 200 and
      glass at 500 per unit and no hardware costs 1584 + 600 = 2184. */
  lemma CostExample()
    ensures var inv := [InventoryItem("P", "P-1", "Frame", Profile, 10.0, Meters, 200.0, "SUP-1", 1.0, None, None),
                        InventoryItem("G", "G-1", "Pane", Glass, 10.0, Sqm, 500.0, "SUP-1", 1.0, None, None)];
      CalculateItemCost(inv, ItemDraft("Window", 1000.0, 1200.0, "P", "G", [], 1.0)) == 2184.0
  {
    var inv := [InventoryItem("P", "P-1", "Frame", Profile, 10.0, Meters, 200.0, "SUP-1", 1.0, None, None),
                InventoryItem("G", "G-1", "Pane", Glass, 10.0, Sqm, 500.0, "SUP-1", 1.0, None, None)];
    assert FindFirst(inv, ItemKey, "P") == Some(inv[0]);
    assert FindFirst(inv, ItemKey, "G") == Some(inv[1]) by {
      assert ItemKey(inv[0]) != "G";
    }
    assert WindowCost(1000.0, 1200.0, 200.0, 500.0, 0.0) == 1584.0 + 600.0;
  }

  lemma ProductNonNegative(a: real, b: real)
    requires a >= 0.0 && b >= 0.0
    ensures a * b >= 0.0
  {
    if a > 0.0 && b > 0.0 {
      assert a * b > 0.0 * b;
    }
  }

  /** One window with non-negative sizes and rates costs at least nothing. */
  lemma WindowCostNonNegative(width: real, height: real, profileRate: real, glassRate: real, hardware: real)
    requires width >= 0.0 && height >= 0.0 && profileRate >= 0.0 && glassRate >= 0.0 && hardware >= 0.0
    ensures WindowCost(width, height, profileRate, glassRate, hardware) >= 0.0
  {
    var w, h := width / 1000.0, height / 1000.0;
    assert w >= 0.0 && h >= 0.0;
    var perimeter := 2.0 * (w + h);
    assert perimeter >= 0.0 && WastageFactor >= 0.0;
    ProductNonNegative(perimeter, WastageFactor);
    ProductNonNegative(perimeter * WastageFactor, profileRate);
    ProductNonNegative(w, h);
    ProductNonNegative(w * h, glassRate);
    assert WindowCost(width, height, profileRate, glassRate, hardware)
      == perimeter * WastageFactor * profileRate + w * h * glassRate + hardware;
  }

  /** With non-negative sizes, rates and quantity a line never costs less
      than nothing. */
  lemma CostNonNegative(inventory: seq<InventoryItem>, item: ItemDraft)
    requires forall j :: 0 <= j < |inventory| ==> inventory[j].cost >= 0.0
    requires item.width >= 0.0 && item.height >= 0.0 && item.quantity >= 0.0
    ensures CalculateItemCost(inventory, item) >= 0.0
  {
    var profile := FindFirst(inventory, ItemKey, item.profileId);
    var glass := FindFirst(inventory, ItemKey, item.glassId);
    if profile.Some? && glass.Some? {
      HardwareCostNonNegative(inventory, item.hardwareIds);
      var hw := HardwareCost(inventory, item.hardwareIds);
      var pc, gc := profile.value.cost, glass.value.cost;
      assert pc >= 0.0 && gc >= 0.0;
      WindowCostNonNegative(item.width, item.height, pc, gc, hw);
      ProductNonNegative(WindowCost(item.width, item.height, pc, gc, hw), item.quantity);
    }
  }

  /** A line costs its quantity times the cost of one window. */
  lemma CostLinearInQuantity(inventory: seq<InventoryItem>, item: ItemDraft)
    ensures CalculateItemCost(inventory, item) == item.quantity * CalculateItemCost(inventory, item.(quantity := 1.0))
  {
    var profile := FindFirst(inventory, ItemKey, item.profileId);
    var glass := FindFirst(inventory, ItemKey, item.glassId);
    if profile.Some? && glass.Some? {
      var u := WindowCost(item.width, item.height, profile.value.cost, glass.value.cost, HardwareCost(inventory, item.hardwareIds));
      assert CalculateItemCost(inventory, item) == u * item.quantity;
      assert CalculateItemCost(inventory, item.(quantity := 1.0)) == u * 1.0;
      assert u * 1.0 == u && u * item.quantity == item.quantity * u;
    }
  }

  // ---------------------------------------------------------------- totals

  /** Sum of the line costs, taken left to right. */
  function SumCosts(items: seq<QuotationItem>): real
    decreases |items|
  {
    if items == [] then 0.0 else SumCosts(items[..|items| - 1]) + items[|items| - 1].cost
  }

  /** The totals a quotation shows agree with its lines: the material cost is
      the sum of the line costs, fabrication is 15 % of it and the grand total
      is their sum. */
  predicate TotalsConsistent(q: Quotation) {
    q.totalCost == SumCosts(q.items)
    && q.fabricationCost == q.totalCost * FabricationRate
    && q.grandTotal == q.totalCost + q.fabricationCost
  }

  /** The new line of `handleAddItem`: the form with id `QTI-<clock in ms>` and
      its computed cost. */
  function NewItem(inventory: seq<InventoryItem>, draft: ItemDraft, nowMs: nat): (item: QuotationItem)
    ensures item.cost == CalculateItemCost(inventory, draft)
    ensures Text.StartsWith(item.id, "QTI-")
  {
    QuotationItem("QTI-" + Text.NatText(nowMs), draft.description, draft.width, draft.height, draft.profileId,
                  draft.glassId, draft.hardwareIds, CalculateItemCost(inventory, draft), draft.quantity)
  }

  /** The quotation after `handleAddItem`: the line appended and the three
      totals recomputed over all lines. */
  function WithItem(q: Quotation, item: QuotationItem): Quotation {
    var items := q.items + [item];
    var total := SumCosts(items);
    var fabrication := total * FabricationRate;
    q.(items := items, totalCost := total, fabricationCost := fabrication, grandTotal := total + fabrication)
  }

  /** Adding a line appends it, keeps every other field, and leaves totals that
      agree with the lines; when they agreed before, each total grows by the
      new line's share. */
  lemma WithItemTotals(q: Quotation, item: QuotationItem)
    ensures var r := WithItem(q, item);
      r.items == q.items + [item] && TotalsConsistent(r)
      && r.(items := q.items, totalCost := q.totalCost, fabricationCost := q.fabricationCost, grandTotal := q.grandTotal) == q
    ensures TotalsConsistent(q) ==> var r := WithItem(q, item);
      r.totalCost == q.totalCost + item.cost && r.grandTotal == q.grandTotal + item.cost * (1.0 + FabricationRate)
  {
    assert (q.items + [item])[..|q.items|] == q.items;
  }

  // ---------------------------------------------------------------- actions offered by status

  datatype QuotationAction = DownloadPdf | MarkAsSent | Approve | AddItem

  /** The buttons the page shows for a quotation in `status`. */
  predicate Offered(status: QuotationStatus, action: QuotationAction) {
    match action
    case DownloadPdf => true
    case MarkAsSent => status == QuotationStatus.Draft
    case Approve => status == Sent
    case AddItem => status == QuotationStatus.Draft
  }

  /** The quotation's status after an offered action succeeds. */
  function StatusAfter(status: QuotationStatus, action: QuotationAction): QuotationStatus {
    match action
    case DownloadPdf => status
    case MarkAsSent => Sent
    case Approve => Approved
    case AddItem => status
  }

  function StatusRank(status: QuotationStatus): nat {
    match status
    case Draft => 0
    case Sent => 1
    case Approved => 2
    case Rejected => 2
  }

  /** Through the page a quotation only moves forward, Draft to Sent to
      Approved; once it is approved (or rejected) only the PDF is offered. */
  lemma ActionsMoveForward(status: QuotationStatus, action: QuotationAction)
    requires Offered(status, action)
    ensures StatusRank(StatusAfter(status, action)) >= StatusRank(status)
    ensures action != DownloadPdf ==> status == QuotationStatus.Draft || status == Sent
    ensures action == Approve ==> StatusAfter(status, action) == Approved && status == Sent
  {
  }

  /** From a Draft, at most two status changes are reachable through the
      buttons, and the page never offers to go back. */
  lemma {:induction false} NoWayBack(status: QuotationStatus, actions: seq<QuotationAction>)
    requires forall i :: 0 <= i < |actions| ==> Offered(Replay(status, actions[..i]), actions[i])
    ensures StatusRank(Replay(status, actions)) >= StatusRank(status)
    decreases |actions|
  {
    if actions != [] {
      var n := |actions| - 1;
      assert actions[..n][..n] == actions[..n];
      forall i | 0 <= i < n ensures Offered(Replay(status, actions[..n][..i]), actions[..n][i]) {
        assert actions[..n][..i] == actions[..i];
      }
      NoWayBack(status, actions[..n]);
      ActionsMoveForward(Replay(status, actions[..n]), actions[n]);
    }
  }

  /** The status after pressing `actions` in order. */
  function Replay(status: QuotationStatus, actions: seq<QuotationAction>): QuotationStatus
    decreases |actions|
  {
    if actions == [] then status
    else StatusAfter(Replay(status, actions[..|actions| - 1]), actions[|actions| - 1])
  }

  // ---------------------------------------------------------------- handlers

  /** `handleApprove` as a change of the store: the quotation becomes
      `Approved`, a sales order is created from it, the enquiry is `Closed`.
      Each of the three calls reads its own clock and random draws. */
  function ApproveEffect(d: AppData, user: Option<User>, q: Quotation, e1: Env, e2: Env, e3: Env): AppData {
    var d1 := UpdateQuotationEffect(d, user, q.id, NoQuotationChange.(status := Some(Approved)), e1);
    var d2 := AddSalesOrderEffect(d1, user, OrderFromQuotation(q, e2), e2);
    UpdateEnquiryEffect(d2, q.enquiryId, NoEnquiryChange.(status := Some(EnquiryStatus.Closed)), e3)
  }

  /** The order `handleApprove` submits (its id is assigned by the store). */
  function OrderFromQuotation(q: Quotation, env: Env): SalesOrder {
    SalesOrder("", q.id, q.customerId, Today(env), "", q.grandTotal, Pending, q.items)
  }

  /** Approval appends one sales order, logs two entries and leaves stock
      alone. */
  lemma ApproveOrders(d: AppData, user: Option<User>, q: Quotation, e1: Env, e2: Env, e3: Env)
    ensures var r := ApproveEffect(d, user, q, e1, e2, e3);
      && r.salesOrders == d.salesOrders + [SalesOrder(NewId("SO", e2), q.id, q.customerId, Today(e2), "", q.grandTotal, Pending, q.items)]
      && |r.activityLog| == |d.activityLog| + 2
      && r.activityLog[|d.activityLog|].action == "Quotation Status Updated"
      && r.activityLog[|d.activityLog| + 1].action == "Sales Order Created"
      && r.inventory == d.inventory
  {
    var d1 := UpdateQuotationEffect(d, user, q.id, NoQuotationChange.(status := Some(Approved)), e1);
    assert d1.salesOrders == d.salesOrders && |d1.activityLog| == |d.activityLog| + 1;
    assert d1.activityLog[|d.activityLog|].action == "Quotation Status Updated";
    var d2 := AddSalesOrderEffect(d1, user, OrderFromQuotation(q, e2), e2);
    assert d2.salesOrders == d.salesOrders + [OrderFromQuotation(q, e2).(id := NewId("SO", e2))];
    assert d2.activityLog[..|d1.activityLog|] == d1.activityLog;
  }

  /** Approval sets the stored quotation to Approved. */
  lemma ApproveQuotation(d: AppData, user: Option<User>, q: Quotation, e1: Env, e2: Env, e3: Env)
    ensures var r := ApproveEffect(d, user, q, e1, e2, e3);
      FindFirst(d.quotations, QuotationKey, q.id).Some? ==>
        FindFirst(r.quotations, QuotationKey, q.id) == Some(FindFirst(d.quotations, QuotationKey, q.id).value.(status := Approved))
  {
    var qp := NoQuotationChange.(status := Some(Approved));
    var fq := x => MergeQuotation(x, qp);
    assert forall x :: QuotationKey(x) == q.id ==> QuotationKey(fq(x)) == q.id;
    MapWhereFindFirst(d.quotations, QuotationKey, q.id, fq);
    var d1 := UpdateQuotationEffect(d, user, q.id, qp, e1);
    assert d1.quotations == MapWhere(d.quotations, QuotationKey, q.id, fq);
  }

  /** Approval closes the stored enquiry. */
  lemma ApproveEnquiry(d: AppData, user: Option<User>, q: Quotation, e1: Env, e2: Env, e3: Env)
    ensures var r := ApproveEffect(d, user, q, e1, e2, e3);
      FindFirst(d.enquiries, EnquiryKey, q.enquiryId).Some? ==>
        FindFirst(r.enquiries, EnquiryKey, q.enquiryId) == Some(FindFirst(d.enquiries, EnquiryKey, q.enquiryId).value.(status := EnquiryStatus.Closed))
  {
    var ep := NoEnquiryChange.(status := Some(EnquiryStatus.Closed));
    var fe := x => MergeEnquiry(x, ep);
    assert forall x :: EnquiryKey(x) == q.enquiryId ==> EnquiryKey(fe(x)) == q.enquiryId;
    MapWhereFindFirst(d.enquiries, EnquiryKey, q.enquiryId, fe);
    var d1 := UpdateQuotationEffect(d, user, q.id, NoQuotationChange.(status := Some(Approved)), e1);
    var d2 := AddSalesOrderEffect(d1, user, OrderFromQuotation(q, e2), e2);
    assert d2.enquiries == d.enquiries;
  }

  /** What approval leaves in the store: the quotation (when stored) is
      Approved, exactly one sales order is appended, for the quotation's
      customer, grand total and lines and in status Pending, the enquiry (when
      stored) is Closed, two entries are logged, and stock is untouched. */
  lemma ApproveOutcome(d: AppData, user: Option<User>, q: Quotation, e1: Env, e2: Env, e3: Env)
    ensures var r := ApproveEffect(d, user, q, e1, e2, e3);
      && r.salesOrders == d.salesOrders + [SalesOrder(NewId("SO", e2), q.id, q.customerId, Today(e2), "", q.grandTotal, Pending, q.items)]
      && |r.activityLog| == |d.activityLog| + 2
      && r.activityLog[|d.activityLog|].action == "Quotation Status Updated"
      && r.activityLog[|d.activityLog| + 1].action == "Sales Order Created"
      && r.inventory == d.inventory
    ensures var r := ApproveEffect(d, user, q, e1, e2, e3);
      FindFirst(d.quotations, QuotationKey, q.id).Some? ==>
        FindFirst(r.quotations, QuotationKey, q.id) == Some(FindFirst(d.quotations, QuotationKey, q.id).value.(status := Approved))
    ensures var r := ApproveEffect(d, user, q, e1, e2, e3);
      FindFirst(d.enquiries, EnquiryKey, q.enquiryId).Some? ==>
        FindFirst(r.enquiries, EnquiryKey, q.enquiryId) == Some(FindFirst(d.enquiries, EnquiryKey, q.enquiryId).value.(status := EnquiryStatus.Closed))
  {
    ApproveOrders(d, user, q, e1, e2, e3);
    ApproveQuotation(d, user, q, e1, e2, e3);
    ApproveEnquiry(d, user, q, e1, e2, e3);
  }

  /** A new line's whole quotation is written back through `updateQuotation`;
      as that payload carries the status, a status entry is logged as well. */
  lemma AddItemLogsStatus(d: AppData, user: Option<User>, q: Quotation, item: QuotationItem, env: Env)
    ensures var r := UpdateQuotationEffect(d, user, q.id, WholeQuotation(WithItem(q, item)), env);
      && |r.activityLog| == |d.activityLog| + 1
      && r.activityLog[|d.activityLog|].action == "Quotation Status Updated"
      && (FindFirst(d.quotations, QuotationKey, q.id).Some? ==>
            FindFirst(r.quotations, QuotationKey, q.id) == Some(WithItem(q, item)))
  {
    var f := x => MergeQuotation(x, WholeQuotation(WithItem(q, item)));
    assert forall x :: QuotationKey(x) == q.id ==> QuotationKey(f(x)) == q.id;
    MapWhereFindFirst(d.quotations, QuotationKey, q.id, f);
  }

  /** `handleAddItem`: cost the form against the stock, append the line,
      recompute the totals and write the whole quotation back. */
  method HandleAddItem(ctx: Context, q: Quotation, draft: ItemDraft, nowMs: nat, env: Env) returns (updated: Quotation)
    modifies ctx.db
    ensures updated == WithItem(q, NewItem(old(ctx.db.inventory), draft, nowMs))
    ensures ctx.db.Data() == UpdateQuotationEffect(old(ctx.db.Data()), ctx.user, q.id, WholeQuotation(updated), env)
  {
    var item := NewItem(ctx.db.inventory, draft, nowMs);
    updated := WithItem(q, item);
    var _ := ctx.UpdateQuotation(q.id, WholeQuotation(updated), env);
  }

  /** The `Mark as Sent` button. */
  method HandleMarkSent(ctx: Context, q: Quotation, env: Env)
    modifies ctx.db
    ensures ctx.db.Data() == UpdateQuotationEffect(old(ctx.db.Data()), ctx.user, q.id, NoQuotationChange.(status := Some(Sent)), env)
  {
    var _ := ctx.UpdateQuotation(q.id, NoQuotationChange.(status := Some(Sent)), env);
  }

  /** `handleApprove`: the three store calls, in order. */
  method HandleApprove(ctx: Context, q: Quotation, e1: Env, e2: Env, e3: Env)
    modifies ctx.db
    ensures ctx.db.Data() == ApproveEffect(old(ctx.db.Data()), ctx.user, q, e1, e2, e3)
  {
    var _ := ctx.UpdateQuotation(q.id, NoQuotationChange.(status := Some(Approved)), e1);
    var _ := ctx.AddSalesOrder(OrderFromQuotation(q, e2), e2);
    var _ := ctx.UpdateEnquiry(q.enquiryId, NoEnquiryChange.(status := Some(EnquiryStatus.Closed)), e3);
  }
}
