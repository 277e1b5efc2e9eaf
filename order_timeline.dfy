/** The order-detail timeline (`components/orders/OrderTimeline.tsx`): one
    stage per pipeline status, marked done (completed) before the order's current
    status, active at it and upcoming after it, with a connector after every
    stage but the last. */
module OrderTimeline {
  import opened Types
  import opened Constants

  datatype StageState = Done | Active | Upcoming

  /** One stage: its name, its state, and for every stage but the last
      whether the connector after it is green. */
  datatype Stage = Stage(name: string, state: StageState, connector: Option<bool>)

  function StateAt(index: int, current: int): StageState {
    if index < current then Done else if index == current then Active else Upcoming
  }

  /** `ORDER_STATUSES.map(...)` over a list of stage labels, for an order
      whose status is the string `status`; a status outside the list has
      index -1. */
  function Stages(labels: seq<string>, status: string): (r: seq<Stage>)
    ensures |r| == |labels|
    ensures forall i :: 0 <= i < |r| ==> r[i].name == labels[i]
  {
    var current := IndexOf(labels, status);
    seq(|labels|, i requires 0 <= i < |labels| =>
      Stage(labels[i], StateAt(i, current), if i < |labels| - 1 then Some(i < current) else None))
  }

  /** The timeline over the order pipeline. */
  function Timeline(status: string): seq<Stage> {
    Stages(OrderStatusLabels(), status)
  }

  /** Stage `i` is done exactly when it precedes the current status and
      active exactly at it; a status outside the list leaves every stage
      upcoming; each connector is green exactly when the stage before it is
      done, and the last stage has none. */
  lemma StagesMeaning(labels: seq<string>, status: string)
    requires labels != []
    ensures var r := Stages(labels, status);
      && (forall i :: 0 <= i < |r| ==> (r[i].state == Done <==> i < IndexOf(labels, status)))
      && (status in labels ==> exists a :: (0 <= a < |r| && labels[a] == status
            && forall i :: 0 <= i < |r| ==> (r[i].state == Active <==> i == a)))
      && (status !in labels ==> forall i :: 0 <= i < |r| ==> r[i].state == Upcoming)
      && (forall i :: 0 <= i < |r| - 1 ==> r[i].connector == Some(r[i].state == Done))
      && r[|r| - 1].connector == None
  {
    var r := Stages(labels, status);
    var a := IndexOf(labels, status);
    if status in labels {
      assert labels[a] == status;
      assert forall i :: 0 <= i < |r| ==> (r[i].state == Active <==> i == a);
    }
  }

  /** For an order in the pipeline, the stages before its own status are
      completed, its own is active and the later ones are upcoming. */
  lemma TimelineOfOrder(s: OrderStatus, k: nat)
    requires k < |OrderStatuses| && OrderStatuses[k] == s
    ensures var r := Timeline(s.Label());
      forall i :: 0 <= i < |r| ==> r[i].state == (if i < k then Done else if i == k then Active else Upcoming)
  {
    LabelsFoundInPlace();
    assert OrderStatusLabels()[k] == s.Label();
  }

  /** A production-board stage that is not a pipeline status shows no
      progress at all. */
  lemma BoardStageShowsNothing()
    ensures forall i :: 0 <= i < |Timeline("Welding")| ==> Timeline("Welding")[i].state == Upcoming
  {
    StagesOutsidePipeline();
    StagesMeaning(OrderStatusLabels(), "Welding");
  }
}
