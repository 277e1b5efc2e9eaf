/** The cutting list of a sales order (`pages/fabrication/CuttingListDetailPage.tsx`):
    the profile cuts of every line, the hardware to pick, aggregated by name,
    and the glass panes to order. */
module CuttingList {
  import opened Types
  import opened Collections
  import opened Api

  // ---------------------------------------------------------------- cuts

  /** One kind of piece to cut: from which profile, which part, how long (mm)
      and how many. */
  datatype Cut = Cut(profileName: string, part: string, length: real, quantity: real)

  /** Frame and sash pieces are shorter than the opening by these allowances (mm). */
  const SashAllowance: real := 80.0
  const BeadAllowance: real := 120.0
  const GlassAllowance: real := 100.0

  /** `generateCuts`: the fixed recipe of a line, or nothing when its profile
      is not in stock. */
  function GenerateCuts(inventory: seq<InventoryItem>, item: QuotationItem): (cuts: seq<Cut>)
    ensures FindFirst(inventory, ItemKey, item.profileId).None? <==> cuts == []
    ensures cuts != [] ==> |cuts| == 5
  {
    match FindFirst(inventory, ItemKey, item.profileId)
    case None => []
    case Some(profile) =>
      [ Cut(profile.name, "Top/Bottom Frame", item.width, 2.0 * item.quantity),
        Cut(profile.name, "Side Frame", item.height, 2.0 * item.quantity),
        Cut(profile.name, "Top/Bottom Sash", item.width - SashAllowance, 2.0 * item.quantity),
        Cut(profile.name, "Side Sash", item.height - SashAllowance, 2.0 * item.quantity),
        Cut(profile.name + " - Glazing Bead", "Bead", item.width - BeadAllowance, 4.0 * item.quantity) ]
  }

  /** Number of pieces in a list of cuts. */
  function Pieces(cuts: seq<Cut>): real
    decreases |cuts|
  {
    if cuts == [] then 0.0 else Pieces(cuts[..|cuts| - 1]) + cuts[|cuts| - 1].quantity
  }

  /** A line with its profile in stock is cut into twelve pieces per window:
      two of each frame and sash part and four beads. */
  lemma CutsPerWindow(inventory: seq<InventoryItem>, item: QuotationItem)
    requires FindFirst(inventory, ItemKey, item.profileId).Some?
    ensures var cuts := GenerateCuts(inventory, item);
      var name := FindFirst(inventory, ItemKey, item.profileId).value.name;
      && Pieces(cuts) == 12.0 * item.quantity
      && (forall i :: 0 <= i < 4 ==> cuts[i].profileName == name)
      && cuts[4].profileName == name + " - Glazing Bead" && cuts[4].length == item.width - 120.0
  {
    var c := GenerateCuts(inventory, item);
    assert Pieces(c[..1]) == c[0].quantity by { assert c[..1][..0] == []; }
    assert Pieces(c[..2]) == Pieces(c[..1]) + c[1].quantity by { assert c[..2][..1] == c[..1]; }
    assert Pieces(c[..3]) == Pieces(c[..2]) + c[2].quantity by { assert c[..3][..2] == c[..2]; }
    assert Pieces(c[..4]) == Pieces(c[..3]) + c[3].quantity by { assert c[..4][..3] == c[..3]; }
    assert Pieces(c) == Pieces(c[..4]) + c[4].quantity;
  }

  /** `allCuts`: every line's cuts, in the order of the lines. */
  function AllCuts(inventory: seq<InventoryItem>, items: seq<QuotationItem>): seq<Cut> {
    FlatMap(items, (item: QuotationItem) => GenerateCuts(inventory, item))
  }

  /** Number of lines whose profile is in stock. */
  function CutLines(inventory: seq<InventoryItem>, items: seq<QuotationItem>): nat
    decreases |items|
  {
    if items == [] then 0
    else CutLines(inventory, items[..|items| - 1])
         + (if FindFirst(inventory, ItemKey, items[|items| - 1].profileId).Some? then 1 else 0)
  }

  /** The cuts of an order are those of its first lines followed by those of
      the rest. */
  lemma AllCutsAppend(inventory: seq<InventoryItem>, a: seq<QuotationItem>, b: seq<QuotationItem>)
    ensures AllCuts(inventory, a + b) == AllCuts(inventory, a) + AllCuts(inventory, b)
  {
    FlatMapAppend(a, b, (item: QuotationItem) => GenerateCuts(inventory, item));
  }

  /** Five kinds of cut per line that has its profile, none for the others. */
  lemma {:induction false} AllCutsCount(inventory: seq<InventoryItem>, items: seq<QuotationItem>)
    ensures |AllCuts(inventory, items)| == 5 * CutLines(inventory, items)
    decreases |items|
  {
    if items != [] {
      AllCutsCount(inventory, items[..|items| - 1]);
    }
  }

  // ---------------------------------------------------------------- hardware

  /** A hardware row: a name and how many to pick. */
  datatype HardwareLine = HardwareLine(name: string, quantity: real)

  function LineName(l: HardwareLine): string { l.name }

  /** The name a hardware id is listed under: the item's name, or `Unknown`
      when the id is not in stock or its name is empty. */
  function HardwareName(inventory: seq<InventoryItem>, id: string): (name: string)
    ensures name != ""
    ensures FindFirst(inventory, ItemKey, id).None? ==> name == "Unknown"
  {
    match FindFirst(inventory, ItemKey, id)
    case None => "Unknown"
    case Some(hw) => if hw.name != "" then hw.name else "Unknown"
  }

  /** One use per hardware id of a line, each for the line's quantity. */
  function LineUses(inventory: seq<InventoryItem>, item: QuotationItem): (uses: seq<HardwareLine>)
    ensures |uses| == |item.hardwareIds|
    ensures forall j :: 0 <= j < |uses| ==> uses[j].quantity == item.quantity
  {
    seq(|item.hardwareIds|, j requires 0 <= j < |item.hardwareIds| =>
      HardwareLine(HardwareName(inventory, item.hardwareIds[j]), item.quantity))
  }

  /** The flattened `(item, hwId)` pairs of an order, in order. */
  function HardwareUses(inventory: seq<InventoryItem>, items: seq<QuotationItem>): seq<HardwareLine>
    decreases |items|
  {
    if items == [] then []
    else HardwareUses(inventory, items[..|items| - 1]) + LineUses(inventory, items[|items| - 1])
  }

  /** One step of the `reduce`: add to the row of the same name, or append a
      new row. */
  function AddUse(acc: seq<HardwareLine>, use: HardwareLine): seq<HardwareLine> {
    match FirstIndex(acc, LineName, use.name)
    case None => acc + [use]
    case Some(k) => acc[k := acc[k].(quantity := acc[k].quantity + use.quantity)]
  }

  /** The aggregated hardware list of a sequence of uses. */
  function Aggregate(uses: seq<HardwareLine>): seq<HardwareLine>
    decreases |uses|
  {
    if uses == [] then [] else AddUse(Aggregate(uses[..|uses| - 1]), uses[|uses| - 1])
  }

  /** The names of a list of rows, in order. */
  function Names(rows: seq<HardwareLine>): (names: seq<string>)
    ensures |names| == |rows|
    ensures forall i :: 0 <= i < |rows| ==> names[i] == rows[i].name
  {
    seq(|rows|, i requires 0 <= i < |rows| => rows[i].name)
  }

  /** Total quantity of the uses named `name`. */
  function QuantityFor(uses: seq<HardwareLine>, name: string): real
    decreases |uses|
  {
    if uses == [] then 0.0
    else QuantityFor(uses[..|uses| - 1], name) + (if uses[|uses| - 1].name == name then uses[|uses| - 1].quantity else 0.0)
  }

  lemma {:induction false} QuantityForAbsent(uses: seq<HardwareLine>, name: string)
    requires name !in Names(uses)
    ensures QuantityFor(uses, name) == 0.0
    decreases |uses|
  {
    if uses != [] {
      var p := uses[..|uses| - 1];
      assert name !in Names(p) by {
        forall i | 0 <= i < |p| ensures Names(p)[i] != name {
          assert Names(p)[i] == Names(uses)[i];
        }
      }
      QuantityForAbsent(p, name);
      assert Names(uses)[|uses| - 1] == uses[|uses| - 1].name;
    }
  }

  lemma NamesAppend(rows: seq<HardwareLine>, x: HardwareLine)
    ensures Names(rows + [x]) == Names(rows) + [x.name]
  {
  }

  lemma NamesUpdate(rows: seq<HardwareLine>, k: int, x: HardwareLine)
    requires 0 <= k < |rows| && x.name == rows[k].name
    ensures Names(rows[k := x]) == Names(rows)
  {
  }

  /** A name is listed exactly when some row has it. */
  lemma NamedRow(rows: seq<HardwareLine>, name: string)
    ensures name in Names(rows) <==> FirstIndex(rows, LineName, name).Some?
  {
    if name in Names(rows) {
      var k :| 0 <= k < |rows| && Names(rows)[k] == name;
      assert LineName(rows[k]) == name;
    }
  }

  /** The aggregated list has one row per distinct name, in order of first
      appearance. */
  lemma {:induction false} AggregateNames(uses: seq<HardwareLine>)
    ensures Names(Aggregate(uses)) == Distinct(Names(uses))
    decreases |uses|
  {
    if uses != [] {
      var p := uses[..|uses| - 1];
      var u := uses[|uses| - 1];
      AggregateNames(p);
      var acc := Aggregate(p);
      var agg := Aggregate(uses);
      assert Names(uses)[..|uses| - 1] == Names(p);
      assert Names(uses)[|uses| - 1] == u.name;
      NamedRow(acc, u.name);
      match FirstIndex(acc, LineName, u.name)
      case None =>
        NamesAppend(acc, u);
      case Some(k) =>
        NamesUpdate(acc, k, acc[k].(quantity := acc[k].quantity + u.quantity));
    }
  }

  /** Each row of the aggregated list holds the total quantity of the uses
      of its name. */
  lemma {:induction false} AggregateSpec(uses: seq<HardwareLine>)
    ensures var agg := Aggregate(uses);
      Names(agg) == Distinct(Names(uses))
      && forall i :: 0 <= i < |agg| ==> agg[i].quantity == QuantityFor(uses, agg[i].name)
    decreases |uses|
  {
    AggregateNames(uses);
    if uses != [] {
      var p := uses[..|uses| - 1];
      var u := uses[|uses| - 1];
      AggregateSpec(p);
      var acc := Aggregate(p);
      var agg := Aggregate(uses);
      match FirstIndex(acc, LineName, u.name)
      case None =>
        assert u.name !in Names(p) by {
          assert u.name !in Names(acc);
        }
        QuantityForAbsent(p, u.name);
        forall i | 0 <= i < |agg|
          ensures agg[i].quantity == QuantityFor(uses, agg[i].name)
        {
          if i < |acc| {
            assert agg[i] == acc[i];
          }
        }
      case Some(k) =>
        forall i | 0 <= i < |agg|
          ensures agg[i].quantity == QuantityFor(uses, agg[i].name)
        {
          if i != k {
            assert agg[i] == acc[i];
            assert Names(acc)[i] != Names(acc)[k];
          }
        }
    }
  }

  /** The `reduce` over the uses: add each to the row of its name, updating
      that row in place, or append it as a new row. */
  method AggregateUses(uses: seq<HardwareLine>) returns (acc: seq<HardwareLine>)
    ensures acc == Aggregate(uses)
  {
    acc := [];
    var i := 0;
    while i < |uses|
      invariant 0 <= i <= |uses|
      invariant acc == Aggregate(uses[..i])
    {
      assert uses[..i + 1][..i] == uses[..i];
      var existing := FirstIndex(acc, LineName, uses[i].name);
      if existing.Some? {
        var k := existing.value;
        acc := acc[k := acc[k].(quantity := acc[k].quantity + uses[i].quantity)];
      } else {
        acc := acc + [uses[i]];
      }
      i := i + 1;
    }
    assert uses[..i] == uses;
  }

  /** `hardwareList`: the `reduce` over the flattened uses of an order. */
  method HardwareList(inventory: seq<InventoryItem>, items: seq<QuotationItem>) returns (acc: seq<HardwareLine>)
    ensures acc == Aggregate(HardwareUses(inventory, items))
    ensures Names(acc) == Distinct(Names(HardwareUses(inventory, items)))
    ensures forall i :: 0 <= i < |acc| ==> acc[i].quantity == QuantityFor(HardwareUses(inventory, items), acc[i].name)
  {
    var uses := HardwareUses(inventory, items);
    acc := AggregateUses(uses);
    AggregateSpec(uses);
  }

  // ---------------------------------------------------------------- glass

  /** A pane to order: the glass name, its size (mm) and how many. */
  datatype GlassLine = GlassLine(name: string, width: real, height: real, quantity: real)

  /** `glassList`: one pane per line, 100 mm smaller than the opening each
      way, named `Unknown Glass` when the glass is not in stock. */
  function GlassList(inventory: seq<InventoryItem>, items: seq<QuotationItem>): (panes: seq<GlassLine>)
    ensures |panes| == |items|
    ensures forall i :: 0 <= i < |items| ==>
      panes[i].width == items[i].width - 100.0 && panes[i].height == items[i].height - 100.0
      && panes[i].quantity == items[i].quantity
      && (FindFirst(inventory, ItemKey, items[i].glassId).None? ==> panes[i].name == "Unknown Glass")
  {
    seq(|items|, i requires 0 <= i < |items| =>
      var glass := FindFirst(inventory, ItemKey, items[i].glassId);
      GlassLine(if glass.Some? && glass.value.name != "" then glass.value.name else "Unknown Glass",
                items[i].width - GlassAllowance, items[i].height - GlassAllowance, items[i].quantity))
  }

  // ---------------------------------------------------------------- the sheet

  datatype Sheet = Sheet(cuts: seq<Cut>, hardware: seq<HardwareLine>, glass: seq<GlassLine>)

  /** The page for order `orderId`: nothing (a spinner) when the order is not
      stored, otherwise its three lists. */
  method CuttingSheet(orders: seq<SalesOrder>, inventory: seq<InventoryItem>, orderId: string) returns (r: Option<Sheet>)
    ensures FindFirst(orders, SalesOrderKey, orderId).None? <==> r.None?
    ensures r.Some? ==> var items := FindFirst(orders, SalesOrderKey, orderId).value.items;
      r.value == Sheet(AllCuts(inventory, items), Aggregate(HardwareUses(inventory, items)), GlassList(inventory, items))
  {
    var order := FindFirst(orders, SalesOrderKey, orderId);
    if order.None? {
      return None;
    }
    var hardware := HardwareList(inventory, order.value.items);
    r := Some(Sheet(AllCuts(inventory, order.value.items), hardware, GlassList(inventory, order.value.items)));
  }
}
