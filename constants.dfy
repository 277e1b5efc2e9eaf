/** The fixed enumerations the pages draw from (`constants.ts`): the user
    roles, the order pipeline, the quotation and purchase-order statuses, the
    production board's stages, the inventory categories and units, and the
    navigation table with the roles that see each entry. */
module Constants {
  import opened Types

  const UserRoles: seq<UserRole> := [Admin, Manager, Sales, Production, Installer]

  /** The sales-order pipeline, in order. */
  const OrderStatuses: seq<OrderStatus> := [
    OrderStatus.Pending, OrderStatus.Cutting, OrderStatus.Fabrication, OrderStatus.Assembly,
    OrderStatus.Glazing, OrderStatus.ReadyForDispatch, OrderStatus.Delivered, OrderStatus.Installed]

  const QuotationStatuses: seq<QuotationStatus> := [QuotationStatus.Draft, Sent, Approved, Rejected]

  const PurchaseOrderStatuses: seq<PurchaseOrderStatus> :=
    [PurchaseOrderStatus.Draft, Ordered, PartiallyReceived, Received, Cancelled]

  /** The columns of the production board; an order dropped on one takes
      the column's name as its status. */
  const ProductionStages: seq<string> := ["Cutting", "Welding", "Cleaning", "Assembly", "Hardware Fixing", "Glazing"]

  const InventoryCategories: seq<string> := ["Profile", "Hardware", "Glass", "Consumable"]

  const InventoryUnits: seq<string> := ["meters", "pieces", "sqm", "liters", "kg"]

  datatype NavItem = NavItem(name: string, path: string, roles: seq<UserRole>)

  const NavItems: seq<NavItem> := [
    NavItem("Dashboard", "/dashboard", [Admin, Manager, Sales, Production]),
    NavItem("Enquiries", "/enquiries", [Admin, Manager, Sales]),
    NavItem("Sales Orders", "/orders", [Admin, Manager, Sales]),
    NavItem("Production", "/production", [Admin, Manager, Production]),
    NavItem("Cutting Lists", "/fabrication/cutting-lists", [Admin, Manager, Production]),
    NavItem("Inventory", "/inventory", [Admin, Manager, Production]),
    NavItem("Purchasing", "/purchasing", [Admin, Manager]),
    NavItem("Dispatch", "/dispatch", [Admin, Manager, Production]),
    NavItem("Installation", "/installation", [Admin, Manager, Installer]),
    NavItem("Warranty", "/warranty", [Admin, Manager, Sales]),
    NavItem("Customers", "/customers", [Admin, Manager, Sales]),
    NavItem("Suppliers", "/suppliers", [Admin, Manager]),
    NavItem("Reports", "/reports", [Admin, Manager]),
    NavItem("Settings", "/settings", [Admin])]

  /** The pipeline as the strings an order's status holds. */
  function OrderStatusLabels(): (r: seq<string>)
    ensures |r| == |OrderStatuses| && forall i :: 0 <= i < |r| ==> r[i] == OrderStatuses[i].Label()
  {
    seq(|OrderStatuses|, i requires 0 <= i < |OrderStatuses| => OrderStatuses[i].Label())
  }

  /** `indexOf`: the first position of `x`, or -1. */
  function IndexOf(s: seq<string>, x: string): (i: int)
    ensures -1 <= i < |s|
    ensures i >= 0 ==> s[i] == x && forall j :: 0 <= j < i ==> s[j] != x
    ensures i == -1 <==> x !in s
    decreases |s|
  {
    if s == [] then -1
    else if s[0] == x then 0
    else
      var k := IndexOf(s[1..], x);
      if k == -1 then -1 else k + 1
  }

  /** Every order status is in the pipeline exactly once, from `Pending` to
      `Installed`. */
  lemma OrderStatusesArePipeline()
    ensures |OrderStatuses| == 8
    ensures OrderStatuses[0] == OrderStatus.Pending && OrderStatuses[7] == OrderStatus.Installed
    ensures forall s: OrderStatus :: s in OrderStatuses
    ensures forall i, j :: 0 <= i < j < |OrderStatuses| ==> OrderStatuses[i] != OrderStatuses[j]
  {
    forall s: OrderStatus ensures s in OrderStatuses {
      match s
      case Pending => assert OrderStatuses[0] == s;
      case Cutting => assert OrderStatuses[1] == s;
      case Fabrication => assert OrderStatuses[2] == s;
      case Assembly => assert OrderStatuses[3] == s;
      case Glazing => assert OrderStatuses[4] == s;
      case ReadyForDispatch => assert OrderStatuses[5] == s;
      case Delivered => assert OrderStatuses[6] == s;
      case Installed => assert OrderStatuses[7] == s;
    }
  }

  /** In a list without repeats each element is found at its own position. */
  lemma {:induction false} IndexOfDistinct(s: seq<string>, i: nat)
    requires forall a, b :: 0 <= a < b < |s| ==> s[a] != s[b]
    requires i < |s|
    ensures IndexOf(s, s[i]) == i
    decreases |s|
  {
    if i > 0 {
      assert s[0] != s[i];
      assert s[1..][i - 1] == s[i];
      IndexOfDistinct(s[1..], i - 1);
    }
  }

  /** The labels are distinct, so each is found at its own position. */
  lemma LabelsFoundInPlace()
    ensures forall i :: 0 <= i < |OrderStatusLabels()| ==> IndexOf(OrderStatusLabels(), OrderStatusLabels()[i]) == i
  {
    var labels := OrderStatusLabels();
    assert labels == ["Pending", "Cutting", "Fabrication", "Assembly", "Glazing", "Ready for Dispatch", "Delivered", "Installed"];
    forall i | 0 <= i < |labels| ensures IndexOf(labels, labels[i]) == i {
      IndexOfDistinct(labels, i);
    }
  }

  /** Four quotation statuses and five purchase-order statuses, each once. */
  lemma StatusListsComplete()
    ensures |QuotationStatuses| == 4 && forall s: QuotationStatus :: s in QuotationStatuses
    ensures |PurchaseOrderStatuses| == 5 && forall s: PurchaseOrderStatus :: s in PurchaseOrderStatuses
  {
    forall s: QuotationStatus ensures s in QuotationStatuses {
      match s
      case Draft => assert QuotationStatuses[0] == s;
      case Sent => assert QuotationStatuses[1] == s;
      case Approved => assert QuotationStatuses[2] == s;
      case Rejected => assert QuotationStatuses[3] == s;
    }
    forall s: PurchaseOrderStatus ensures s in PurchaseOrderStatuses {
      match s
      case Draft => assert PurchaseOrderStatuses[0] == s;
      case Ordered => assert PurchaseOrderStatuses[1] == s;
      case PartiallyReceived => assert PurchaseOrderStatuses[2] == s;
      case Received => assert PurchaseOrderStatuses[3] == s;
      case Cancelled => assert PurchaseOrderStatuses[4] == s;
    }
  }

  /** Three of the production board's stages are not pipeline statuses. */
  lemma StagesOutsidePipeline()
    ensures forall s :: s in ["Welding", "Cleaning", "Hardware Fixing"] ==> s in ProductionStages && s !in OrderStatusLabels()
  {
    assert OrderStatusLabels() == ["Pending", "Cutting", "Fabrication", "Assembly", "Glazing", "Ready for Dispatch", "Delivered", "Installed"];
  }

  /** The category list is the four categories' labels, in declaration order. */
  lemma CategoriesAreLabels()
    ensures InventoryCategories == [Profile.Label(), Hardware.Label(), Glass.Label(), Consumable.Label()]
    ensures forall c: InventoryCategory :: c.Label() in InventoryCategories
  {
    forall c: InventoryCategory ensures c.Label() in InventoryCategories {
      match c
      case Profile => assert InventoryCategories[0] == c.Label();
      case Hardware => assert InventoryCategories[1] == c.Label();
      case Glass => assert InventoryCategories[2] == c.Label();
      case Consumable => assert InventoryCategories[3] == c.Label();
    }
  }

  /** The sidebar's entries for a role: `NAV_ITEMS.filter(item =>
      item.roles.includes(role))`, and none without a signed-in user. */
  function Visible(user: Option<User>): (r: seq<string>)
    ensures user.None? ==> r == []
    ensures forall k :: 0 <= k < |NavItems| ==> (NavItems[k].name in r <==> user.Some? && user.value.role in NavItems[k].roles)
  {
    match user
    case None => []
    case Some(u) => VisibleFor(NavItems, u.role)
  }

  function VisibleFor(items: seq<NavItem>, role: UserRole): (r: seq<string>)
    requires forall i, j :: 0 <= i < j < |items| ==> items[i].name != items[j].name
    ensures forall k :: 0 <= k < |items| ==> (items[k].name in r <==> role in items[k].roles)
    ensures forall n :: n in r ==> exists k :: 0 <= k < |items| && items[k].name == n
    decreases |items|
  {
    if items == [] then []
    else
      var rest := VisibleFor(items[1..], role);
      assert forall k :: 1 <= k < |items| ==> items[k] == items[1..][k - 1];
      if role in items[0].roles then [items[0].name] + rest else rest
  }

  /** The entry named Settings is the last one, and it lists Admin alone. */
  lemma SettingsEntry()
    ensures forall k :: 0 <= k < |NavItems| && NavItems[k].name == "Settings" ==> k == 13
    ensures NavItems[13].name == "Settings" && NavItems[13].roles == [Admin]
  {
    forall k | 0 <= k < 13 ensures NavItems[k].name != "Settings" {
      assert |NavItems[k].name| != 8 || NavItems[k].name[0] != 'S';
    }
  }

  /** Settings is offered to administrators only. */
  lemma SettingsAdminOnly(user: User)
    ensures "Settings" in Visible(Some(user)) <==> user.role == Admin
  {
    var settings := NavItems[13];
    assert settings.name == "Settings" && settings.roles == [Admin] by {
      SettingsEntry();
    }
    assert settings.name in Visible(Some(user)) <==> user.role in settings.roles;
  }

  /** Every role in the navigation table is a user role. */
  lemma NavRolesAreUserRoles()
    ensures forall k, r :: 0 <= k < |NavItems| && r in NavItems[k].roles ==> r in UserRoles
  {
    forall r: UserRole ensures r in UserRoles {
      match r
      case Admin => assert UserRoles[0] == r;
      case Manager => assert UserRoles[1] == r;
      case Sales => assert UserRoles[2] == r;
      case Production => assert UserRoles[3] == r;
      case Installer => assert UserRoles[4] == r;
    }
  }
}
