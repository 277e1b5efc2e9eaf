/** The purchase-order list page (`pages/purchasing/PurchaseOrdersListPage.tsx`):
    the create-PO modal, its editable lines and the total it submits. */
module PurchaseOrders {
  import opened Types
  import opened Collections
  import opened Api
  import opened DataContext
  import Text

  /** A line as `Add Item` creates it: no item chosen, one unit, no cost. */
  const BlankLine := PurchaseOrderItem("", 1.0, 0.0)

  /** `totalAmount`: the sum of quantity x unit cost, taken left to right. */
  function OrderTotal(lines: seq<PurchaseOrderItem>): real
    decreases |lines|
  {
    if lines == [] then 0.0
    else OrderTotal(lines[..|lines| - 1]) + lines[|lines| - 1].quantity * lines[|lines| - 1].unitCost
  }

  /** Changing one line changes the total by that line's difference only. */
  lemma {:induction false} OrderTotalUpdate(lines: seq<PurchaseOrderItem>, i: int, x: PurchaseOrderItem)
    requires 0 <= i < |lines|
    ensures OrderTotal(lines[i := x]) == OrderTotal(lines) - lines[i].quantity * lines[i].unitCost + x.quantity * x.unitCost
    decreases |lines|
  {
    var n := |lines| - 1;
    var u := lines[i := x];
    if i < n {
      assert u[..n] == lines[..n][i := x];
      OrderTotalUpdate(lines[..n], i, x);
    } else {
      assert u[..n] == lines[..n];
    }
  }

  /** A blank line adds nothing to the total. */
  lemma BlankLineCostsNothing(lines: seq<PurchaseOrderItem>)
    ensures OrderTotal(lines + [BlankLine]) == OrderTotal(lines)
  {
    assert (lines + [BlankLine])[..|lines|] == lines;
  }

  /** The cost a chosen item brings to its line: its cost, or 0 when it is not
      in stock. */
  function ChosenCost(inventory: seq<InventoryItem>, id: string): (c: real)
    ensures FindFirst(inventory, ItemKey, id).None? ==> c == 0.0
    ensures FindFirst(inventory, ItemKey, id).Some? ==> c == FindFirst(inventory, ItemKey, id).value.cost
  {
    match FindFirst(inventory, ItemKey, id)
    case None => 0.0
    case Some(item) => item.cost
  }

  /** The field of a line an edit names. */
  datatype LineField = ItemId | Quantity | UnitCost

  /** The create-PO modal. */
  class PurchaseOrderForm {
    var isOpen: bool
    var lines: seq<PurchaseOrderItem>
    var supplierId: string
    var expectedDeliveryDate: string

    constructor (today: string)
      ensures !isOpen && lines == [] && supplierId == "" && expectedDeliveryDate == today
    {
      isOpen, lines, supplierId, expectedDeliveryDate := false, [], "", today;
    }

    /** `handleOpenModal`: preselect the first supplier, when there is one. */
    method Open(suppliers: seq<Supplier>)
      modifies this
      ensures isOpen && lines == old(lines) && expectedDeliveryDate == old(expectedDeliveryDate)
      ensures supplierId == if suppliers != [] then suppliers[0].id else old(supplierId)
    {
      if |suppliers| > 0 {
        supplierId := suppliers[0].id;
      }
      isOpen := true;
    }

    /** `handleCloseModal`: close and drop every line. */
    method Close()
      modifies this
      ensures !isOpen && lines == []
      ensures supplierId == old(supplierId) && expectedDeliveryDate == old(expectedDeliveryDate)
    {
      isOpen := false;
      lines := [];
    }

    /** `handleAddItem`: append one blank line. */
    method AddLine()
      modifies this
      ensures lines == old(lines) + [BlankLine]
      ensures isOpen == old(isOpen) && supplierId == old(supplierId) && expectedDeliveryDate == old(expectedDeliveryDate)
    {
      lines := lines + [BlankLine];
    }

    /** `handleItemChange` for a line the modal shows: choosing an item sets
        its id to `value` and resets the unit cost to the item's cost; a
        number edit overwrites that one field with `parseFloat(value)`. Text
        that `parseFloat` reads as NaN is reported through `nan` and leaves
        the line as it was. */
    method ChangeLine(index: int, field: LineField, value: string, inventory: seq<InventoryItem>) returns (nan: bool)
      requires 0 <= index < |lines|
      modifies this
      ensures nan <==> field != ItemId && Text.ParseFloat(value).None?
      ensures |lines| == |old(lines)|
      ensures forall j :: 0 <= j < |lines| && j != index ==> lines[j] == old(lines[j])
      ensures lines[index] == (match field
        case ItemId => old(lines[index]).(inventoryItemId := value, unitCost := ChosenCost(inventory, value))
        case Quantity => old(lines[index]).(quantity := if Text.ParseFloat(value).Some? then Text.ParseFloat(value).value else old(lines[index]).quantity)
        case UnitCost => old(lines[index]).(unitCost := if Text.ParseFloat(value).Some? then Text.ParseFloat(value).value else old(lines[index]).unitCost))
      ensures isOpen == old(isOpen) && supplierId == old(supplierId) && expectedDeliveryDate == old(expectedDeliveryDate)
    {
      var line := lines[index];
      nan := false;
      match field {
        case ItemId =>
          line := line.(inventoryItemId := value, unitCost := ChosenCost(inventory, value));
        case Quantity =>
          match Text.ParseFloat(value) {
            case Some(v) => line := line.(quantity := v);
            case None => nan := true;
          }
        case UnitCost =>
          match Text.ParseFloat(value) {
            case Some(v) => line := line.(unitCost := v);
            case None => nan := true;
          }
      }
      lines := lines[index := line];
    }

    /** The order `handleSubmit` creates: status `Ordered`, today's order date,
        the modal's lines and their total. */
    function Submitted(today: string): (po: PurchaseOrder)
      reads this
      ensures po.status == PurchaseOrderStatus.Ordered && po.items == lines && po.totalAmount == OrderTotal(lines)
      ensures po.supplierId == supplierId && po.orderDate == today && po.expectedDeliveryDate == expectedDeliveryDate
    {
      PurchaseOrder("", supplierId, today, expectedDeliveryDate, PurchaseOrderStatus.Ordered, lines, OrderTotal(lines))
    }

    /** `handleSubmit`: total the lines in a loop, add the order, close. */
    method Submit(ctx: Context, env: Env)
      modifies this, ctx.db
      ensures ctx.db.Data() == AddPurchaseOrderEffect(old(ctx.db.Data()), ctx.user, old(Submitted(Today(env))), env)
      ensures !isOpen && lines == []
    {
      var total := 0.0;
      var i := 0;
      while i < |lines|
        invariant 0 <= i <= |lines|
        invariant total == OrderTotal(lines[..i])
      {
        assert lines[..i + 1][..i] == lines[..i];
        total := total + lines[i].quantity * lines[i].unitCost;
        i := i + 1;
      }
      assert lines[..i] == lines;
      var po := PurchaseOrder("", supplierId, Today(env), expectedDeliveryDate, PurchaseOrderStatus.Ordered, lines, total);
      var _ := ctx.AddPurchaseOrder(po, env);
      Close();
    }
  }

  /** A submitted order is stored last, `Ordered`, with a fresh `PO-` id and
      a total that agrees with its lines. */
  lemma SubmittedOrderStored(d: AppData, user: Option<User>, po: PurchaseOrder, env: Env)
    requires po.totalAmount == OrderTotal(po.items) && po.status == PurchaseOrderStatus.Ordered
    ensures var r := AddPurchaseOrderEffect(d, user, po, env);
      && |r.purchaseOrders| == |d.purchaseOrders| + 1
      && r.purchaseOrders[..|d.purchaseOrders|] == d.purchaseOrders
      && var stored := r.purchaseOrders[|d.purchaseOrders|];
      && stored.status == PurchaseOrderStatus.Ordered && stored.totalAmount == OrderTotal(stored.items)
      && stored.items == po.items && stored.id == NewId("PO", env)
      && r.inventory == d.inventory
  {
  }
}
