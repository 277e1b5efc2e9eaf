/** The warranty list page (`pages/warranty/WarrantyListPage.tsx`): the
    orders a complaint may be registered against, and the complaint modal. */
module Warranty {
  import opened Types
  import opened Collections
  import opened Api
  import opened DataContext

  predicate IsInstalled(o: SalesOrder) {
    o.status == OrderStatus.Installed
  }

  /** The orders the modal offers: those in status `Installed`, in store
      order. */
  function ClaimableOrders(orders: seq<SalesOrder>): (r: seq<SalesOrder>)
    ensures forall o :: o in r <==> o in orders && o.status == OrderStatus.Installed
  {
    Filter(orders, IsInstalled)
  }

  datatype FormField = OrderId | ClaimDate | Description

  /** The complaint modal and its form. */
  class ClaimForm {
    var isOpen: bool
    var orderId: string
    var claimDate: string
    var description: string

    /** No order chosen, claimed today, no description. */
    constructor (today: string)
      ensures !isOpen && orderId == "" && claimDate == today && description == ""
    {
      isOpen := false;
      orderId, claimDate, description := "", today, "";
    }

    method Open()
      modifies this
      ensures isOpen && orderId == old(orderId) && claimDate == old(claimDate) && description == old(description)
    {
      isOpen := true;
    }

    /** `handleCloseModal`: hide the modal; the form keeps its values. */
    method Close()
      modifies this
      ensures !isOpen
      ensures orderId == old(orderId) && claimDate == old(claimDate) && description == old(description)
    {
      isOpen := false;
    }

    /** `handleChange`: overwrite the named field only. */
    method Change(field: FormField, value: string)
      modifies this
      ensures isOpen == old(isOpen)
      ensures orderId == (if field == OrderId then value else old(orderId))
      ensures claimDate == (if field == ClaimDate then value else old(claimDate))
      ensures description == (if field == Description then value else old(description))
    {
      match field
      case OrderId => orderId := value;
      case ClaimDate => claimDate := value;
      case Description => description := value;
    }

    /** The claim the form submits: `Open`, with no service visit yet. */
    function Submitted(): (w: WarrantyClaim)
      reads this
      ensures w.status == WarrantyStatus.Open && w.serviceVisits == [] && w.resolutionDetails.None?
      ensures w.orderId == orderId && w.claimDate == claimDate && w.description == description
    {
      WarrantyClaim("", orderId, claimDate, description, WarrantyStatus.Open, None, [])
    }

    /** `handleSubmit`: without an order, refuse and change nothing;
        otherwise add the claim and close the modal. */
    method Submit(ctx: Context, env: Env) returns (refused: bool)
      modifies this, ctx.db
      ensures refused <==> old(orderId) == ""
      ensures refused ==> ctx.db.Data() == old(ctx.db.Data()) && isOpen == old(isOpen)
      ensures !refused ==> ctx.db.Data() == AddWarrantyClaimEffect(old(ctx.db.Data()), ctx.user, old(Submitted()), env) && !isOpen
      ensures orderId == old(orderId) && claimDate == old(claimDate) && description == old(description)
    {
      if orderId == "" {
        return true;
      }
      var claim := Submitted();
      var _ := ctx.AddWarrantyClaim(claim, env);
      ghost var after := ctx.db.Data();
      isOpen := false;
      assert ctx.db.Data() == after;
      refused := false;
    }
  }

  /** A registered claim is stored last, `Open`, with no visits, a fresh
      `WARR-` id and one log entry. */
  lemma ClaimOutcome(d: AppData, user: Option<User>, w: WarrantyClaim, env: Env)
    requires w.status == WarrantyStatus.Open && w.serviceVisits == []
    ensures var r := AddWarrantyClaimEffect(d, user, w, env);
      && r.warrantyClaims == d.warrantyClaims + [w.(id := NewId("WARR", env))]
      && r.warrantyClaims[|d.warrantyClaims|].status == WarrantyStatus.Open
      && r.warrantyClaims[|d.warrantyClaims|].serviceVisits == []
      && |r.activityLog| == |d.activityLog| + 1
      && r.activityLog[|d.activityLog|].action == "Warranty Claim Opened"
      && r.salesOrders == d.salesOrders
  {
  }
}
