/** The installation schedule page
    (`pages/installation/InstallationSchedulePage.tsx`): which orders may be
    scheduled, how the team field is read, and the schedule modal. */
module InstallationSchedule {
  import opened Types
  import opened Collections
  import opened Api
  import opened DataContext
  import Text

  /** An order may be scheduled once it is delivered and no installation
      references it. */
  predicate Eligible(o: SalesOrder, installations: seq<Installation>) {
    o.status == OrderStatus.Delivered && !exists i :: 0 <= i < |installations| && installations[i].orderId == o.id
  }

  function EligibleAmong(installations: seq<Installation>): SalesOrder -> bool {
    o => Eligible(o, installations)
  }

  /** `ordersReadyForInstallation`, in store order. */
  function ReadyOrders(orders: seq<SalesOrder>, installations: seq<Installation>): (r: seq<SalesOrder>)
    ensures forall o :: o in r <==> o in orders && Eligible(o, installations)
  {
    Filter(orders, EligibleAmong(installations))
  }

  /** Once an installation references an order, that order is no longer
      offered. */
  lemma ScheduledOrderNotOffered(orders: seq<SalesOrder>, installations: seq<Installation>, inst: Installation)
    ensures forall o :: o in ReadyOrders(orders, installations + [inst]) ==> o.id != inst.orderId
  {
    forall o | o in ReadyOrders(orders, installations + [inst]) ensures o.id != inst.orderId {
      var all := installations + [inst];
      assert all[|installations|] == inst;
    }
  }

  /** `Schedule Installation` is disabled exactly when no order is eligible. */
  predicate ScheduleDisabled(orders: seq<SalesOrder>, installations: seq<Installation>) {
    ReadyOrders(orders, installations) == []
  }

  lemma ScheduleDisabledIffNoneEligible(orders: seq<SalesOrder>, installations: seq<Installation>)
    ensures ScheduleDisabled(orders, installations) <==>
      forall i :: 0 <= i < |orders| ==> !Eligible(orders[i], installations)
  {
    if !ScheduleDisabled(orders, installations) {
      assert ReadyOrders(orders, installations)[0] in ReadyOrders(orders, installations);
    } else {
      forall i | 0 <= i < |orders| ensures !Eligible(orders[i], installations) {
        assert orders[i] in orders;
      }
    }
  }

  /** The team field: the text split at every comma, nothing trimmed. */
  function Team(value: string): (team: seq<string>)
    ensures team != []
    ensures Text.Join(team, ",") == value
  {
    Text.JoinSplit(value, ',');
    Text.Split(value, ',')
  }

  /** Spaces after a comma stay in the member's name. */
  lemma TeamNotTrimmed()
    ensures Team("Ravi, Amit") == ["Ravi", " Amit"]
  {
    assert "Ravi, Amit" == "Ravi" + [','] + " Amit";
    Text.SplitAfterSeparator("Ravi", " Amit", ',');
    Text.SplitNoSeparator(" Amit", ',');
  }

  datatype FormField = OrderId | ScheduledDate | TeamField

  /** The schedule modal and its form. */
  class ScheduleForm {
    var isOpen: bool
    var orderId: string
    var scheduledDate: string
    var team: seq<string>

    constructor (today: string)
      ensures !isOpen && orderId == "" && scheduledDate == today && team == []
    {
      isOpen := false;
      orderId, scheduledDate, team := "", today, [];
    }

    method Open()
      modifies this
      ensures isOpen && orderId == old(orderId) && scheduledDate == old(scheduledDate) && team == old(team)
    {
      isOpen := true;
    }

    /** `handleCloseModal`: hide the modal; the form keeps its values. */
    method Close()
      modifies this
      ensures !isOpen
      ensures orderId == old(orderId) && scheduledDate == old(scheduledDate) && team == old(team)
    {
      isOpen := false;
    }

    /** `handleChange`: overwrite the named field only; the team field is
        split at commas. */
    method Change(field: FormField, value: string)
      modifies this
      ensures isOpen == old(isOpen)
      ensures orderId == (if field == OrderId then value else old(orderId))
      ensures scheduledDate == (if field == ScheduledDate then value else old(scheduledDate))
      ensures team == (if field == TeamField then Team(value) else old(team))
    {
      match field
      case OrderId => orderId := value;
      case ScheduledDate => scheduledDate := value;
      case TeamField => team := Team(value);
    }

    /** The installation the form submits, in status `Scheduled`. */
    function Submitted(): (inst: Installation)
      reads this
      ensures inst.status == InstallationStatus.Scheduled
      ensures inst.orderId == orderId && inst.scheduledDate == scheduledDate && inst.team == team
      ensures inst.completionDate.None? && inst.customerFeedback.None? && inst.photos.None?
    {
      Installation("", orderId, scheduledDate, team, InstallationStatus.Scheduled, None, None, None)
    }

    /** `handleSubmit`: without an order, refuse and change nothing;
        otherwise add the installation and close the modal. */
    method Submit(ctx: Context, env: Env) returns (refused: bool)
      modifies this, ctx.db
      ensures refused <==> old(orderId) == ""
      ensures refused ==> ctx.db.Data() == old(ctx.db.Data()) && isOpen == old(isOpen)
      ensures !refused ==> ctx.db.Data() == AddInstallationEffect(old(ctx.db.Data()), ctx.user, old(Submitted()), env) && !isOpen
      ensures orderId == old(orderId) && scheduledDate == old(scheduledDate) && team == old(team)
    {
      if orderId == "" {
        return true;
      }
      var inst := Submitted();
      var _ := ctx.AddInstallation(inst, env);
      ghost var after := ctx.db.Data();
      isOpen := false;
      assert ctx.db.Data() == after;
      refused := false;
    }
  }

  /** A scheduled installation is stored last, `Scheduled`, with a fresh
      `INST-` id, and its order is no longer offered. */
  lemma ScheduleOutcome(d: AppData, user: Option<User>, inst: Installation, env: Env)
    requires inst.status == InstallationStatus.Scheduled
    ensures var r := AddInstallationEffect(d, user, inst, env);
      && r.installations == d.installations + [inst.(id := NewId("INST", env))]
      && r.salesOrders == d.salesOrders
      && forall o :: o in ReadyOrders(r.salesOrders, r.installations) ==> o.id != inst.orderId
  {
    ScheduledOrderNotOffered(d.salesOrders, d.installations, inst.(id := NewId("INST", env)));
  }
}
