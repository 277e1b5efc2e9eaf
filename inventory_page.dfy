/** The inventory page (`pages/inventory/InventoryListPage.tsx`): the colour
    swatch of a profile, the category tab and search filter, and the add/edit
    modal with its merge of a new item into an existing SKU. */
module InventoryPage {
  import opened Types
  import opened Collections
  import opened Patches
  import opened Api
  import opened DataContext
  import Text

  // ---------------------------------------------------------------- colour swatch

  const MissingColorClass := "bg-gray-200 text-gray-800"
  const UnknownColorClass := "bg-slate-100 text-slate-600"

  /** `getColorClass`: the swatch of the first keyword found in the colour,
      ignoring case; gray when there is no colour, slate when no keyword is
      found. */
  function ColorClass(color: Option<string>): (r: string)
    ensures r == MissingColorClass <==> color.None? || color.value == ""
  {
    if color.None? || color.value == "" then MissingColorClass
    else
      var c := Text.Lower(color.value);
      if Text.Contains(c, "white") then "bg-white text-slate-800"
      else if Text.Contains(c, "anthracite") then "bg-slate-700 text-white"
      else if Text.Contains(c, "mahagony") || Text.Contains(c, "mahogany") then "bg-red-900 text-white"
      else if Text.Contains(c, "oak") then "bg-amber-700 text-white"
      else if Text.Contains(c, "walnut") then "bg-amber-900 text-white"
      else if Text.Contains(c, "black") then "bg-black text-white"
      else UnknownColorClass
  }

  /** The keyword table the swatches follow, in priority order. */
  const Swatches: seq<(string, string)> := [
    ("white", "bg-white text-slate-800"),
    ("anthracite", "bg-slate-700 text-white"),
    ("mahagony", "bg-red-900 text-white"),
    ("mahogany", "bg-red-900 text-white"),
    ("oak", "bg-amber-700 text-white"),
    ("walnut", "bg-amber-900 text-white"),
    ("black", "bg-black text-white")]

  /** The class of the first row of `table` whose keyword occurs in `c`. */
  function FirstSwatch(c: string, table: seq<(string, string)>): (r: Option<string>)
    ensures r.None? <==> forall i :: 0 <= i < |table| ==> !Text.Contains(c, table[i].0)
    decreases |table|
  {
    if table == [] then None
    else if Text.Contains(c, table[0].0) then Some(table[0].1)
    else FirstSwatch(c, table[1..])
  }

  /** The swatch is that of the first keyword of the table found in the
      lower-cased colour, or the slate class when none is. */
  lemma ColorClassFollowsTable(color: string)
    requires color != ""
    ensures ColorClass(Some(color)) == match FirstSwatch(Text.Lower(color), Swatches)
      case None => UnknownColorClass
      case Some(cls) => cls
  {
    var c := Text.Lower(color);
    assert Swatches[1..][1..][1..][1..][1..][1..][1..] == [];
  }

  /** A colour is matched ignoring case. */
  lemma ColorClassIgnoresCase(a: string, b: string)
    requires Text.Lower(a) == Text.Lower(b)
    ensures ColorClass(Some(a)) == ColorClass(Some(b))
  {
    if a == "" || b == "" {
      assert |Text.Lower(a)| == |a| && |Text.Lower(b)| == |b|;
    }
  }

  // ---------------------------------------------------------------- filter

  /** An item is listed when it is in the active tab and, for a non-empty
      (lower-cased) term, the term occurs in its name, SKU or colour ignoring
      case. */
  predicate Listed(item: InventoryItem, category: InventoryCategory, term: string) {
    item.category == category
    && (term == ""
        || Text.Contains(Text.Lower(item.name), term)
        || Text.Contains(Text.Lower(item.sku), term)
        || (item.color.Some? && Text.Contains(Text.Lower(item.color.value), term)))
  }

  /** `filteredInventory` for the search text `search`, in inventory order. */
  function FilteredInventory(inventory: seq<InventoryItem>, category: InventoryCategory, search: string): (r: seq<InventoryItem>)
    ensures |r| <= |inventory|
    decreases |inventory|
  {
    if inventory == [] then []
    else
      var rest := FilteredInventory(inventory[..|inventory| - 1], category, search);
      if Listed(inventory[|inventory| - 1], category, Text.Lower(search)) then rest + [inventory[|inventory| - 1]] else rest
  }

  /** The filter keeps inventory order: filtering a concatenation filters
      each part. */
  lemma {:induction false} FilteredAppend(a: seq<InventoryItem>, b: seq<InventoryItem>, category: InventoryCategory, search: string)
    ensures FilteredInventory(a + b, category, search) == FilteredInventory(a, category, search) + FilteredInventory(b, category, search)
    decreases |b|
  {
    if b == [] {
      assert a + b == a;
    } else {
      var b' := b[..|b| - 1];
      assert (a + b)[..|a + b| - 1] == a + b';
      assert (a + b)[|a + b| - 1] == b[|b| - 1];
      FilteredAppend(a, b', category, search);
    }
  }

  /** One item is shown exactly when it is listed. */
  lemma FilteredSingle(item: InventoryItem, category: InventoryCategory, search: string)
    ensures FilteredInventory([item], category, search) == if Listed(item, category, Text.Lower(search)) then [item] else []
  {
    assert [item][..0] == [];
  }

  /** An item is shown exactly when it is stored and listed. */
  lemma {:induction false} FilteredMembership(inventory: seq<InventoryItem>, category: InventoryCategory, search: string, x: InventoryItem)
    ensures x in FilteredInventory(inventory, category, search) <==> x in inventory && Listed(x, category, Text.Lower(search))
    decreases |inventory|
  {
    if inventory != [] {
      var p := inventory[..|inventory| - 1];
      FilteredMembership(p, category, search, x);
      assert inventory == p + [inventory[|inventory| - 1]];
    }
  }

  /** With no search text, the tab shows every item of its category, in
      order. */
  lemma {:induction false} EmptySearchShowsCategory(inventory: seq<InventoryItem>, category: InventoryCategory)
    ensures FilteredInventory(inventory, category, "") == ItemsOf(inventory, category)
    decreases |inventory|
  {
    if inventory != [] {
      EmptySearchShowsCategory(inventory[..|inventory| - 1], category);
    }
  }

  /** The items of one category, in order. */
  function ItemsOf(inventory: seq<InventoryItem>, category: InventoryCategory): seq<InventoryItem>
    decreases |inventory|
  {
    if inventory == [] then []
    else
      var rest := ItemsOf(inventory[..|inventory| - 1], category);
      if inventory[|inventory| - 1].category == category then rest + [inventory[|inventory| - 1]] else rest
  }

  // ---------------------------------------------------------------- the modal

  /** `parseFloat(value) || 0`: the number the text starts with, or 0. */
  function NumberOrZero(value: string): real {
    match Text.ParseFloat(value)
    case None => 0.0
    case Some(v) => v
  }

  /** The form of a new item: the active tab, one unit in metres, no cost, the
      first supplier, a reorder level of 10 and empty texts. */
  function BlankForm(category: InventoryCategory, suppliers: seq<Supplier>): InventoryItem {
    InventoryItem("", "", "", category, 1.0, Meters, 0.0, if suppliers != [] then suppliers[0].id else "",
                  10.0, Some(""), Some(""))
  }

  /** A text field of the form. */
  datatype TextField = Sku | Name | SupplierId | Dimensions
  /** A number field of the form. */
  datatype NumberField = Quantity | Cost | ReorderLevel

  /** The distinct catalog descriptions the description select offers. */
  function CatalogDescriptions(catalog: seq<CatalogItem>): seq<string> {
    Distinct(seq(|catalog|, i requires 0 <= i < |catalog| => catalog[i].desc))
  }

  /** The colours offered for a description: its catalog entries, or none
      when no description is chosen. */
  function AvailableColors(catalog: seq<CatalogItem>, desc: string): (r: seq<CatalogItem>)
    ensures forall x :: x in r <==> desc != "" && x in catalog && x.desc == desc
    decreases |catalog|
  {
    if desc == "" || catalog == [] then []
    else
      var rest := AvailableColors(catalog[..|catalog| - 1], desc);
      assert catalog == catalog[..|catalog| - 1] + [catalog[|catalog| - 1]];
      if catalog[|catalog| - 1].desc == desc then rest + [catalog[|catalog| - 1]] else rest
  }

  /** What a submit did. */
  datatype Outcome = Refused(message: string) | Updated | QuantityAdded | Declined | Added | Failed

  function SkuKey(i: InventoryItem): string { Text.Lower(i.sku) }

  /** The stored item whose SKU equals `sku` ignoring case, if any. */
  function SameSku(inventory: seq<InventoryItem>, sku: string): Option<InventoryItem> {
    FindFirst(inventory, SkuKey, Text.Lower(sku))
  }

  /** The message of a refused submit, if the form is refused. */
  function Refusal(item: Option<InventoryItem>, form: InventoryItem, selected: Option<CatalogItem>): Option<string> {
    if form.category == Profile && selected.None? && item.None? then Some("Please select a profile description and color.")
    else if form.name == "" || form.sku == "" then Some("SKU and Name are required.")
    else None
  }

  /** The store after `handleSubmit`, with `confirmed` the answer to the SKU
      question. */
  function SubmitEffect(d: AppData, user: Option<User>, item: Option<InventoryItem>, form: InventoryItem,
                        selected: Option<CatalogItem>, confirmed: bool, show: real -> string, env: Env): AppData {
    if Refusal(item, form, selected).Some? then d
    else if item.Some? then UpdateInventoryItemEffect(d, user, item.value.id, WholeInventoryItem(form), show, env)
    else NewItemEffect(d, user, form, confirmed, show, env)
  }

  /** The patch that adds the form's quantity to a stored item. */
  function AddedQuantity(existing: InventoryItem, form: InventoryItem): InventoryPatch {
    NoInventoryChange.(quantity := Some(existing.quantity + form.quantity))
  }

  /** The store after submitting an accepted new item. */
  function NewItemEffect(d: AppData, user: Option<User>, form: InventoryItem, confirmed: bool, show: real -> string, env: Env): AppData {
    match SameSku(d.inventory, form.sku)
    case Some(existing) =>
      if confirmed then UpdateInventoryItemEffect(d, user, existing.id, AddedQuantity(existing, form), show, env) else d
    case None => AddInventoryItemEffect(d, user, form, env)
  }

  /** The outcome of `handleSubmit`. */
  function SubmitOutcome(d: AppData, item: Option<InventoryItem>, form: InventoryItem,
                         selected: Option<CatalogItem>, confirmed: bool): Outcome {
    if Refusal(item, form, selected).Some? then Refused(Refusal(item, form, selected).value)
    else if item.Some? then
      (if FindFirst(d.inventory, ItemKey, item.value.id).Some? then Updated else Failed)
    else match SameSku(d.inventory, form.sku)
      case Some(existing) => if confirmed then QuantityAdded else Declined
      case None => Added
  }

  /** A refused submit leaves the store as it was. */
  lemma RefusedSubmitChangesNothing(d: AppData, user: Option<User>, item: Option<InventoryItem>, form: InventoryItem,
                                    selected: Option<CatalogItem>, confirmed: bool, show: real -> string, env: Env)
    requires (form.category == Profile && selected.None? && item.None?) || form.name == "" || form.sku == ""
    ensures SubmitEffect(d, user, item, form, selected, confirmed, show, env) == d
    ensures SubmitOutcome(d, item, form, selected, confirmed).Refused?
  {
  }

  /** Adding the form's quantity changes the quantity of the records with
      the existing item's id and nothing else, position by position. */
  lemma AddedQuantityPositions(inventory: seq<InventoryItem>, existing: InventoryItem, form: InventoryItem)
    ensures var r := MapWhere(inventory, ItemKey, existing.id, i => MergeInventoryItem(i, AddedQuantity(existing, form)));
      forall j :: 0 <= j < |inventory| ==>
        r[j] == if inventory[j].id == existing.id
                then inventory[j].(quantity := existing.quantity + form.quantity)
                else inventory[j]
  {
    var f := i => MergeInventoryItem(i, AddedQuantity(existing, form));
    forall j | 0 <= j < |inventory|
      ensures MapWhere(inventory, ItemKey, existing.id, f)[j] ==
        if inventory[j].id == existing.id then inventory[j].(quantity := existing.quantity + form.quantity) else inventory[j]
    {
      MapWhereKeepsPositions(inventory, ItemKey, existing.id, f, j);
    }
  }

  /** A new item whose SKU is already stored (ignoring case) is never added:
      when the user confirms, the quantity of the stored item (of every record
      with its id) becomes its quantity plus the form's, and nothing else of
      any item changes. */
  lemma ExistingSkuMerges(d: AppData, user: Option<User>, form: InventoryItem, selected: Option<CatalogItem>,
                          show: real -> string, env: Env)
    requires Refusal(None, form, selected).None?
    requires SameSku(d.inventory, form.sku).Some?
    ensures var r := SubmitEffect(d, user, None, form, selected, true, show, env);
      var existing := SameSku(d.inventory, form.sku).value;
      |r.inventory| == |d.inventory|
      && forall j :: 0 <= j < |d.inventory| ==>
        r.inventory[j] == if d.inventory[j].id == existing.id
                          then d.inventory[j].(quantity := existing.quantity + form.quantity)
                          else d.inventory[j]
  {
    var existing := SameSku(d.inventory, form.sku).value;
    var patch := AddedQuantity(existing, form);
    assert SubmitEffect(d, user, None, form, selected, true, show, env) == UpdateInventoryItemEffect(d, user, existing.id, patch, show, env);
    UpdateTouchesInventory(d, user, existing.id, patch, show, env);
    AddedQuantityPositions(d.inventory, existing, form);
  }

  /** Declining the SKU question changes nothing at all. */
  lemma ExistingSkuDeclined(d: AppData, user: Option<User>, form: InventoryItem, selected: Option<CatalogItem>,
                            show: real -> string, env: Env)
    requires SameSku(d.inventory, form.sku).Some?
    ensures SubmitEffect(d, user, None, form, selected, false, show, env) == d
    ensures SubmitOutcome(d, None, form, selected, false) in {Declined, Refused("Please select a profile description and color."), Refused("SKU and Name are required.")}
  {
  }

  /** An inventory update changes the inventory by merging the patch into
      every record with the id, and no other collection. */
  lemma UpdateTouchesInventory(d: AppData, user: Option<User>, id: string, patch: InventoryPatch, show: real -> string, env: Env)
    ensures var r := UpdateInventoryItemEffect(d, user, id, patch, show, env);
      r.inventory == MapWhere(d.inventory, ItemKey, id, i => MergeInventoryItem(i, patch))
      && r.(inventory := d.inventory, history := d.history, activityLog := d.activityLog) == d
  {
  }

  /** A new SKU adds exactly one item, the form under a fresh `INV-` id. */
  lemma NewSkuAddsOneItem(d: AppData, user: Option<User>, form: InventoryItem, selected: Option<CatalogItem>,
                          confirmed: bool, show: real -> string, env: Env)
    requires Refusal(None, form, selected).None?
    requires forall j :: 0 <= j < |d.inventory| ==> Text.Lower(d.inventory[j].sku) != Text.Lower(form.sku)
    ensures var r := SubmitEffect(d, user, None, form, selected, confirmed, show, env);
      r.inventory == d.inventory + [form.(id := NewId("INV", env))]
      && Text.StartsWith(r.inventory[|d.inventory|].id, "INV-")
  {
    assert forall j :: 0 <= j < |d.inventory| ==> SkuKey(d.inventory[j]) != Text.Lower(form.sku);
  }

  /** An edit replaces the stored item by the form. */
  lemma EditReplacesItem(d: AppData, user: Option<User>, item: InventoryItem, form: InventoryItem,
                         selected: Option<CatalogItem>, confirmed: bool, show: real -> string, env: Env)
    requires Refusal(Some(item), form, selected).None?
    requires form.id == item.id
    ensures var r := SubmitEffect(d, user, Some(item), form, selected, confirmed, show, env);
      FindFirst(d.inventory, ItemKey, item.id).Some? ==> FindFirst(r.inventory, ItemKey, item.id) == Some(form)
  {
    var f := i => MergeInventoryItem(i, WholeInventoryItem(form));
    assert forall x :: ItemKey(x) == item.id ==> ItemKey(f(x)) == item.id;
    MapWhereFindFirst(d.inventory, ItemKey, item.id, f);
  }

  /** `InventoryItemModal` and its state. */
  class ItemModal {
    var isOpen: bool
    /** The item being edited; none for a new item. */
    const item: Option<InventoryItem>
    var form: InventoryItem
    var selectedDesc: string
    var selectedCatalogItem: Option<CatalogItem>

    /** The edit form carries the id of the item it edits. */
    predicate Valid()
      reads this
    {
      item.Some? ==> form.id == item.value.id
    }

    /** Opening the modal: a copy of the edited item, or the blank form. */
    constructor (item: Option<InventoryItem>, category: InventoryCategory, suppliers: seq<Supplier>)
      ensures isOpen && this.item == item && Valid()
      ensures form == if item.Some? then item.value else BlankForm(category, suppliers)
      ensures selectedDesc == "" && selectedCatalogItem.None?
    {
      this.item := item;
      isOpen := true;
      form := if item.Some? then item.value else BlankForm(category, suppliers);
      selectedDesc := "";
      selectedCatalogItem := None;
    }

    /** `handleChange` on a text field: overwrite that field only. */
    method ChangeText(field: TextField, value: string)
      modifies this
      ensures form == match field
        case Sku => old(form).(sku := value)
        case Name => old(form).(name := value)
        case SupplierId => old(form).(supplierId := value)
        case Dimensions => old(form).(dimensions := Some(value))
      ensures isOpen == old(isOpen) && selectedDesc == old(selectedDesc) && selectedCatalogItem == old(selectedCatalogItem)
    {
      match field {
        case Sku => form := form.(sku := value);
        case Name => form := form.(name := value);
        case SupplierId => form := form.(supplierId := value);
        case Dimensions => form := form.(dimensions := Some(value));
      }
    }

    /** `handleChange` on a number field: the number the text starts with,
        or 0. */
    method ChangeNumber(field: NumberField, value: string)
      modifies this
      ensures form == match field
        case Quantity => old(form).(quantity := NumberOrZero(value))
        case Cost => old(form).(cost := NumberOrZero(value))
        case ReorderLevel => old(form).(reorderLevel := NumberOrZero(value))
      ensures isOpen == old(isOpen) && selectedDesc == old(selectedDesc) && selectedCatalogItem == old(selectedCatalogItem)
    {
      var n := NumberOrZero(value);
      match field {
        case Quantity => form := form.(quantity := n);
        case Cost => form := form.(cost := n);
        case ReorderLevel => form := form.(reorderLevel := n);
      }
    }

    /** The category and unit selects. The page disables the category select
        while an item is edited, so this call only happens on a new item. */
    method ChangeCategory(category: InventoryCategory)
      modifies this
      ensures form == old(form).(category := category)
      ensures isOpen == old(isOpen) && selectedDesc == old(selectedDesc) && selectedCatalogItem == old(selectedCatalogItem)
    {
      form := form.(category := category);
    }

    method ChangeUnit(unit: Unit)
      modifies this
      ensures form == old(form).(unit := unit)
      ensures isOpen == old(isOpen) && selectedDesc == old(selectedDesc) && selectedCatalogItem == old(selectedCatalogItem)
    {
      form := form.(unit := unit);
    }

    /** Choosing a description: a non-empty one clears the chosen colour. The
        page disables the description select while an item is edited, so this
        call only happens on a new item. */
    method SelectDescription(desc: string)
      modifies this
      ensures selectedDesc == desc && form == old(form) && isOpen == old(isOpen)
      ensures selectedCatalogItem == if desc != "" then None else old(selectedCatalogItem)
    {
      selectedDesc := desc;
      if desc != "" {
        selectedCatalogItem := None;
      }
    }

    /** `handleSelectColor`: copy the catalog entry into the form. */
    method SelectColor(entry: CatalogItem)
      modifies this
      ensures selectedCatalogItem == Some(entry)
      ensures form == old(form).(sku := entry.code, name := entry.desc, color := Some(entry.color), cost := entry.price)
      ensures isOpen == old(isOpen) && selectedDesc == old(selectedDesc)
    {
      selectedCatalogItem := Some(entry);
      form := form.(sku := entry.code, name := entry.desc, color := Some(entry.color), cost := entry.price);
    }

    /** `handleSubmit`, with `confirmed` the answer to the SKU question. A
        refused form keeps the modal open; a failed edit (no stored item) throws
        before closing it. */
    method Submit(ctx: Context, confirmed: bool, show: real -> string, env: Env) returns (r: Outcome)
      requires Valid()
      modifies this, ctx.db
      ensures r == SubmitOutcome(old(ctx.db.Data()), item, old(form), old(selectedCatalogItem), confirmed)
      ensures ctx.db.Data() == SubmitEffect(old(ctx.db.Data()), ctx.user, item, old(form), old(selectedCatalogItem), confirmed, show, env)
      ensures isOpen == (if r.Refused? || r.Failed? then old(isOpen) else false)
      ensures form == old(form) && selectedCatalogItem == old(selectedCatalogItem)
    {
      ghost var d0 := ctx.db.Data();
      var refusal := Refusal(item, form, selectedCatalogItem);
      if refusal.Some? {
        return Refused(refusal.value);
      }
      if item.Some? {
        var id := item.value.id;
        var patch := WholeInventoryItem(form);
        var f := i => MergeInventoryItem(i, patch);
        assert SubmitEffect(d0, ctx.user, item, form, selectedCatalogItem, confirmed, show, env)
          == UpdateInventoryItemEffect(d0, ctx.user, id, patch, show, env);
        MapWhereFindFirst(d0.inventory, ItemKey, id, f);
        UpdateTouchesInventory(d0, ctx.user, id, patch, show, env);
        var u := ctx.UpdateInventoryItem(id, patch, show, env);
        if u.Err? {
          return Failed;
        }
        r := Updated;
      } else {
        var existing := SameSku(ctx.db.inventory, form.sku);
        assert existing == SameSku(d0.inventory, form.sku);
        if existing.Some? {
          if confirmed {
            var patch := AddedQuantity(existing.value, form);
            assert SubmitEffect(d0, ctx.user, item, form, selectedCatalogItem, confirmed, show, env)
              == NewItemEffect(d0, ctx.user, form, confirmed, show, env);
            var _ := ctx.UpdateInventoryItem(existing.value.id, patch, show, env);
            r := QuantityAdded;
          } else {
            r := Declined;
          }
        } else {
          assert SubmitEffect(d0, ctx.user, item, form, selectedCatalogItem, confirmed, show, env)
            == AddInventoryItemEffect(d0, ctx.user, form, env);
          var _ := ctx.AddInventoryItem(form, env);
          r := Added;
        }
      }
      isOpen := false;
    }
  }
}
