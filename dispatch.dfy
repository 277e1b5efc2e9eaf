/** The dispatch list page (`pages/dispatch/DispatchListPage.tsx`): which
    orders may be dispatched, and the create-dispatch modal that schedules a
    dispatch and marks its order delivered. */
module DispatchPage {
  import opened Types
  import opened Patches
  import opened Collections
  import opened Api
  import opened DataContext

  predicate IsReady(o: SalesOrder) {
    o.status == ReadyForDispatch
  }

  /** `ordersReadyForDispatch`: the orders in status `Ready for Dispatch`,
      in store order. */
  function ReadyOrders(orders: seq<SalesOrder>): (r: seq<SalesOrder>)
    ensures forall o :: o in r <==> o in orders && o.status == ReadyForDispatch
  {
    Filter(orders, IsReady)
  }

  /** `Create Dispatch` is disabled exactly when no order is ready. */
  predicate CreateDisabled(orders: seq<SalesOrder>) {
    ReadyOrders(orders) == []
  }

  lemma CreateDisabledIffNoneReady(orders: seq<SalesOrder>)
    ensures CreateDisabled(orders) <==> forall i :: 0 <= i < |orders| ==> orders[i].status != ReadyForDispatch
  {
    if !CreateDisabled(orders) {
      var o := ReadyOrders(orders)[0];
      assert o in ReadyOrders(orders);
    } else {
      forall i | 0 <= i < |orders| ensures orders[i].status != ReadyForDispatch {
        assert orders[i] in orders;
      }
    }
  }

  /** The patch that moves an order on to `Delivered`. */
  const ToDelivered := NoSalesOrderChange.(status := Some(OrderStatus.Delivered))

  /** `handleSubmit` as a change of the store: add the dispatch in status
      `Scheduled`, then mark the order `Delivered`. Each of the two calls
      reads its own clock and random draws. */
  function DispatchEffect(d: AppData, user: Option<User>, disp: Dispatch, e1: Env, e2: Env): AppData {
    var d1 := AddDispatchEffect(d, user, disp, e1);
    UpdateSalesOrderEffect(d1, user, disp.orderId, ToDelivered, e2)
  }

  /** A dispatch adds exactly one `Scheduled` dispatch for the order, moves
      that order (when stored) to `Delivered` and no other order, logs two
      entries and leaves stock alone. */
  lemma DispatchOutcome(d: AppData, user: Option<User>, disp: Dispatch, e1: Env, e2: Env)
    requires disp.status == DispatchStatus.Scheduled
    ensures var r := DispatchEffect(d, user, disp, e1, e2);
      && r.dispatches == d.dispatches + [disp.(id := NewId("DISP", e1))]
      && |r.salesOrders| == |d.salesOrders|
      && (forall i :: 0 <= i < |d.salesOrders| && d.salesOrders[i].id != disp.orderId ==> r.salesOrders[i] == d.salesOrders[i])
      && (forall i :: 0 <= i < |d.salesOrders| && d.salesOrders[i].id == disp.orderId ==>
            r.salesOrders[i] == d.salesOrders[i].(status := OrderStatus.Delivered))
      && |r.activityLog| == |d.activityLog| + 2
      && r.activityLog[|d.activityLog|].action == "Order Dispatched"
      && r.activityLog[|d.activityLog| + 1].action == "Order Status Updated"
      && r.inventory == d.inventory
  {
    var d1 := AddDispatchEffect(d, user, disp, e1);
    assert d1.salesOrders == d.salesOrders && d1.inventory == d.inventory;
    assert |d1.activityLog| == |d.activityLog| + 1;
    var f := o => MergeSalesOrder(o, ToDelivered);
    forall i | 0 <= i < |d.salesOrders|
      ensures MapWhere(d.salesOrders, SalesOrderKey, disp.orderId, f)[i]
              == if d.salesOrders[i].id == disp.orderId then d.salesOrders[i].(status := OrderStatus.Delivered) else d.salesOrders[i]
    {
      MapWhereKeepsPositions(d.salesOrders, SalesOrderKey, disp.orderId, f, i);
    }
  }

  /** The two store calls of `handleSubmit`, in order. */
  method DispatchOrder(ctx: Context, disp: Dispatch, e1: Env, e2: Env)
    modifies ctx.db
    ensures ctx.db.Data() == DispatchEffect(old(ctx.db.Data()), ctx.user, disp, e1, e2)
  {
    var _ := ctx.AddDispatch(disp, e1);
    var _ := ctx.UpdateSalesOrder(disp.orderId, ToDelivered, e2);
  }

  datatype FormField = OrderId | DispatchDate | VehicleNumber | DriverName

  /** The create-dispatch modal and its form. */
  class DispatchForm {
    var isOpen: bool
    var orderId: string
    var dispatchDate: string
    var vehicleNumber: string
    var driverName: string

    /** No order chosen, dispatched today. */
    constructor (today: string)
      ensures !isOpen && orderId == "" && dispatchDate == today && vehicleNumber == "" && driverName == ""
    {
      isOpen := false;
      orderId, dispatchDate, vehicleNumber, driverName := "", today, "", "";
    }

    method Open()
      modifies this
      ensures isOpen
      ensures orderId == old(orderId) && dispatchDate == old(dispatchDate)
      ensures vehicleNumber == old(vehicleNumber) && driverName == old(driverName)
    {
      isOpen := true;
    }

    /** `handleCloseModal`: hide the modal; the form keeps its values. */
    method Close()
      modifies this
      ensures !isOpen
      ensures orderId == old(orderId) && dispatchDate == old(dispatchDate)
      ensures vehicleNumber == old(vehicleNumber) && driverName == old(driverName)
    {
      isOpen := false;
    }

    /** `handleChange`: overwrite the named field only. */
    method Change(field: FormField, value: string)
      modifies this
      ensures isOpen == old(isOpen)
      ensures orderId == (if field == OrderId then value else old(orderId))
      ensures dispatchDate == (if field == DispatchDate then value else old(dispatchDate))
      ensures vehicleNumber == (if field == VehicleNumber then value else old(vehicleNumber))
      ensures driverName == (if field == DriverName then value else old(driverName))
    {
      match field
      case OrderId => orderId := value;
      case DispatchDate => dispatchDate := value;
      case VehicleNumber => vehicleNumber := value;
      case DriverName => driverName := value;
    }

    /** The dispatch the form submits, in status `Scheduled`. */
    function Submitted(): (disp: Dispatch)
      reads this
      ensures disp.status == DispatchStatus.Scheduled && disp.orderId == orderId
      ensures disp.dispatchDate == dispatchDate && disp.vehicleNumber == vehicleNumber && disp.driverName == driverName
    {
      Dispatch("", orderId, dispatchDate, vehicleNumber, driverName, DispatchStatus.Scheduled)
    }

    /** `handleSubmit`: without an order, refuse and change nothing; otherwise
        dispatch, mark the order delivered and close the modal (the form
        keeps its values). */
    method Submit(ctx: Context, e1: Env, e2: Env) returns (refused: bool)
      modifies this, ctx.db
      ensures refused <==> old(orderId) == ""
      ensures refused ==> ctx.db.Data() == old(ctx.db.Data()) && isOpen == old(isOpen)
      ensures !refused ==> ctx.db.Data() == DispatchEffect(old(ctx.db.Data()), ctx.user, old(Submitted()), e1, e2) && !isOpen
      ensures orderId == old(orderId) && dispatchDate == old(dispatchDate)
      ensures vehicleNumber == old(vehicleNumber) && driverName == old(driverName)
    {
      if orderId == "" {
        return true;
      }
      ghost var before := ctx.db.Data();
      var disp := Submitted();
      DispatchOrder(ctx, disp, e1, e2);
      ghost var after := ctx.db.Data();
      assert after == DispatchEffect(before, ctx.user, disp, e1, e2);
      Close();
      assert ctx.db.Data() == after;
      refused := false;
    }
  }
}
