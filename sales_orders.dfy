/** The sales-order list (`pages/orders/SalesOrdersListPage.tsx`): one row
    per order with its customer's name and a progress bar whose width is the
    share of the pipeline the order's status has reached. */
module SalesOrders {
  import opened Types
  import opened Collections
  import opened Constants
  import Api

  /** `(indexOf(status) + 1) / statuses.length * 100`, for a status held as
      a string. */
  function ProgressIn(labels: seq<string>, status: string): (p: real)
    requires labels != []
    ensures 0.0 <= p <= 100.0
    ensures status !in labels ==> p == 0.0
    ensures status == labels[|labels| - 1] && status !in labels[..|labels| - 1] ==> p == 100.0
  {
    var k := IndexOf(labels, status);
    assert status == labels[|labels| - 1] && status !in labels[..|labels| - 1] ==> k == |labels| - 1;
    Share((k + 1) as real, |labels| as real);
    (k + 1) as real / |labels| as real * 100.0
  }

  lemma Share(part: real, whole: real)
    requires 0.0 <= part <= whole && whole > 0.0
    ensures 0.0 <= part / whole * 100.0 <= 100.0
    ensures part == whole ==> part / whole * 100.0 == 100.0
  {
    assert part / whole <= 1.0 by {
      assert part / whole * whole == part;
    }
  }

  /** The progress bar over the order pipeline. */
  function Progress(status: string): real {
    ProgressIn(OrderStatusLabels(), status)
  }

  /** The first pipeline status fills one eighth of the bar. */
  lemma PendingProgress()
    ensures Progress(OrderStatus.Pending.Label()) == 12.5
  {
    LabelsFoundInPlace();
    assert OrderStatusLabels()[0] == OrderStatus.Pending.Label();
  }

  /** The last pipeline status fills the bar. */
  lemma InstalledProgress()
    ensures Progress(OrderStatus.Installed.Label()) == 100.0
  {
    LabelsFoundInPlace();
    assert OrderStatusLabels()[7] == OrderStatus.Installed.Label();
  }

  /** The bar grows strictly along the pipeline. */
  lemma ProgressIncreasing(i: nat, j: nat)
    requires i < j < |OrderStatuses|
    ensures Progress(OrderStatuses[i].Label()) < Progress(OrderStatuses[j].Label())
  {
    LabelsFoundInPlace();
    var labels := OrderStatusLabels();
    assert labels[i] == OrderStatuses[i].Label() && labels[j] == OrderStatuses[j].Label();
    assert (i + 1) as real < (j + 1) as real;
  }

  /** `customer?.name || 'N/A'`: the name of the first customer with the
      order's customer id, unless there is none or it is empty. */
  function CustomerName(order: SalesOrder, customers: seq<Customer>): (name: string)
    ensures name == "N/A" <==> ((forall i :: 0 <= i < |customers| ==> customers[i].id != order.customerId)
      || FindFirst(customers, Api.CustomerKey, order.customerId).value.name in {"", "N/A"})
    ensures name != "N/A" ==> exists i :: 0 <= i < |customers| && customers[i].id == order.customerId && customers[i].name == name
  {
    match FindFirst(customers, Api.CustomerKey, order.customerId)
    case None => "N/A"
    case Some(c) => if c.name == "" then "N/A" else c.name
  }

  /** One row of the table. */
  datatype Row = Row(id: string, customer: string, totalAmount: real, progress: real, status: string)

  function Rows(orders: seq<SalesOrder>, customers: seq<Customer>): (r: seq<Row>)
    ensures |r| == |orders|
    ensures forall i :: 0 <= i < |orders| ==> r[i].id == orders[i].id && r[i].progress == Progress(orders[i].status.Label())
  {
    seq(|orders|, i requires 0 <= i < |orders| =>
      var o := orders[i];
      Row(o.id, CustomerName(o, customers), o.totalAmount, Progress(o.status.Label()), o.status.Label()))
  }
}
