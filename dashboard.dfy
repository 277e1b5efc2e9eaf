/** The dashboard's statistics (`pages/dashboard/DashboardPage.tsx`): stock
    value and quantity, distinct SKUs, the value change against the previous
    day, low stock, the top profile colour, the most valuable item and the
    order and quotation counts. */
module Dashboard {
  import opened Types
  import opened Collections

  // ---------------------------------------------------------------- totals

  /** `inventory.reduce((sum, item) => sum + item.quantity, 0)`. */
  function TotalQuantity(items: seq<InventoryItem>): (r: real)
    ensures (forall i :: 0 <= i < |items| ==> items[i].quantity >= 0.0) ==>
      r >= 0.0 && forall i :: 0 <= i < |items| ==> items[i].quantity <= r
    decreases |items|
  {
    if items == [] then 0.0 else TotalQuantity(items[..|items| - 1]) + items[|items| - 1].quantity
  }

  /** The total over two lists is the sum of their totals, so the card moves by
      exactly the quantity of an item added to or removed from the end. */
  lemma {:induction false} TotalQuantityAppend(a: seq<InventoryItem>, b: seq<InventoryItem>)
    ensures TotalQuantity(a + b) == TotalQuantity(a) + TotalQuantity(b)
    decreases |b|
  {
    if b == [] {
      assert a + b == a;
    } else {
      var b' := b[..|b| - 1];
      assert (a + b)[..|a + b| - 1] == a + b';
      TotalQuantityAppend(a, b');
    }
  }

  function Skus(items: seq<InventoryItem>): (r: seq<string>)
    ensures |r| == |items| && forall i :: 0 <= i < |items| ==> r[i] == items[i].sku
  {
    seq(|items|, i requires 0 <= i < |items| => items[i].sku)
  }

  /** `new Set(inventory.map(i => i.sku)).size`: the number of distinct SKUs. */
  function CatalogCount(items: seq<InventoryItem>): (n: nat)
    ensures n <= |items|
    ensures n == 0 <==> items == []
  {
    var d := Distinct(Skus(items));
    assert items != [] ==> Skus(items)[0] in d;
    |d|
  }

  /** With no SKU repeated, every item counts once. */
  lemma CatalogCountOfDistinctSkus(items: seq<InventoryItem>)
    requires forall i, j :: 0 <= i < j < |items| ==> items[i].sku != items[j].sku
    ensures CatalogCount(items) == |items|
  {
    DistinctOfDistinct(Skus(items));
  }

  // ---------------------------------------------------------------- value change

  /** The change against the previous entry, in percent. */
  function Pct(total: real, prev: real): real
    requires prev > 0.0
  {
    (total - prev) / prev * 100.0
  }

  /** The indicator: its text and whether it is shown red. `fixed1` stands for
      `toFixed(1)`. */
  datatype Change = Change(text: string, red: bool)

  function ValueChange(total: real, history: seq<HistoryEntry>, fixed1: real -> string): Change {
    if |history| >= 2 && history[|history| - 2].value > 0.0 then
      var pct := Pct(total, history[|history| - 2].value);
      Change((if pct >= 0.0 then "+" else "") + fixed1(pct) + "%", pct < 0.0)
    else Change("+0%", false)
  }

  /** Without a positive previous entry the indicator is a green `+0%`;
      with one it is red exactly when the stock value fell, and the sign is
      written exactly when it did not. */
  lemma ValueChangeMeaning(total: real, history: seq<HistoryEntry>, fixed1: real -> string)
    ensures (|history| < 2 || history[|history| - 2].value <= 0.0) ==> ValueChange(total, history, fixed1) == Change("+0%", false)
    ensures (|history| >= 2 && history[|history| - 2].value > 0.0) ==>
      var prev := history[|history| - 2].value;
      var c := ValueChange(total, history, fixed1);
      (c.red <==> total < prev)
      && (total >= prev ==> c.text == "+" + fixed1(Pct(total, prev)) + "%")
      && (total < prev ==> c.text == fixed1(Pct(total, prev)) + "%")
  {
    if |history| >= 2 && history[|history| - 2].value > 0.0 {
      var prev := history[|history| - 2].value;
      PctSign(total, prev);
    }
  }

  lemma PctSign(total: real, prev: real)
    requires prev > 0.0
    ensures Pct(total, prev) < 0.0 <==> total < prev
  {
    if total < prev {
      assert (total - prev) / prev < 0.0;
    } else {
      assert (total - prev) / prev >= 0.0;
    }
  }

  // ---------------------------------------------------------------- counts

  predicate IsLow(item: InventoryItem) {
    item.quantity <= item.reorderLevel
  }

  predicate IsActive(o: SalesOrder) {
    o.status != OrderStatus.Delivered && o.status != OrderStatus.Installed
  }

  predicate IsPending(q: Quotation) {
    q.status == Sent
  }

  function LowStockCount(items: seq<InventoryItem>): (n: nat)
    ensures n <= |items|
    ensures n == 0 <==> forall i :: 0 <= i < |items| ==> items[i].quantity > items[i].reorderLevel
  {
    Count(items, IsLow)
  }

  function ActiveOrders(orders: seq<SalesOrder>): (n: nat)
    ensures n <= |orders|
    ensures n == 0 <==> forall i :: 0 <= i < |orders| ==> orders[i].status in {OrderStatus.Delivered, OrderStatus.Installed}
  {
    Count(orders, IsActive)
  }

  function PendingQuotes(quotations: seq<Quotation>): (n: nat)
    ensures n <= |quotations|
    ensures n == 0 <==> forall i :: 0 <= i < |quotations| ==> quotations[i].status != Sent
  {
    Count(quotations, IsPending)
  }

  // ---------------------------------------------------------------- most valuable item

  datatype Valued = Valued(name: string, value: real)

  /** The reduce that keeps the first item of strictly larger value, starting
      from `None` at 0. */
  function MostValuable(items: seq<InventoryItem>): Valued
    decreases |items|
  {
    if items == [] then Valued("None", 0.0)
    else
      var best := MostValuable(items[..|items| - 1]);
      var x := items[|items| - 1];
      if ItemValue(x) > best.value then Valued(x.name, ItemValue(x)) else best
  }

  /** The result bounds every item's value from above, is never negative, and
      is `None` whenever it is 0. */
  lemma {:induction false} MostValuableBounds(items: seq<InventoryItem>)
    ensures MostValuable(items).value >= 0.0
    ensures MostValuable(items).value == 0.0 ==> MostValuable(items) == Valued("None", 0.0)
    ensures forall j :: 0 <= j < |items| ==> ItemValue(items[j]) <= MostValuable(items).value
    decreases |items|
  {
    if items != [] {
      var p := items[..|items| - 1];
      MostValuableBounds(p);
      forall j | 0 <= j < |items|
        ensures ItemValue(items[j]) <= MostValuable(items).value
      {
        if j < |p| {
          assert items[j] == p[j];
        }
      }
    }
  }

  /** A positive result names the first item of that value, and every item
      before it is worth strictly less. */
  lemma {:induction false} MostValuableFirst(items: seq<InventoryItem>) returns (m: nat)
    requires MostValuable(items).value > 0.0
    ensures m < |items| && MostValuable(items) == Valued(items[m].name, ItemValue(items[m]))
    ensures forall j :: 0 <= j < m ==> ItemValue(items[j]) < ItemValue(items[m])
    decreases |items|
  {
    var p := items[..|items| - 1];
    var x := items[|items| - 1];
    var best := MostValuable(p);
    MostValuableBounds(p);
    if ItemValue(x) > best.value {
      m := |p|;
      forall j | 0 <= j < m
        ensures ItemValue(items[j]) < ItemValue(items[m])
      {
        assert items[j] == p[j];
      }
    } else {
      m := MostValuableFirst(p);
      forall j | 0 <= j < m
        ensures ItemValue(items[j]) < ItemValue(items[m])
      {
        assert items[j] == p[j];
      }
      assert items[m] == p[m];
    }
  }

  /** `None` at 0 when no item is worth more than 0; otherwise the first item
      of the largest value. */
  lemma MostValuableIsFirstLargest(items: seq<InventoryItem>)
    ensures (forall i :: 0 <= i < |items| ==> ItemValue(items[i]) <= 0.0) ==> MostValuable(items) == Valued("None", 0.0)
    ensures (exists i :: 0 <= i < |items| && ItemValue(items[i]) > 0.0) ==>
      exists m :: 0 <= m < |items|
        && MostValuable(items) == Valued(items[m].name, ItemValue(items[m]))
        && (forall j :: 0 <= j < |items| ==> ItemValue(items[j]) <= ItemValue(items[m]))
        && (forall j :: 0 <= j < m ==> ItemValue(items[j]) < ItemValue(items[m]))
  {
    MostValuableBounds(items);
    var r := MostValuable(items);
    if r.value > 0.0 {
      var m := MostValuableFirst(items);
    }
  }

  // ---------------------------------------------------------------- top colour

  /** The items the colour map counts: profiles with a non-empty colour. */
  predicate Coloured(item: InventoryItem) {
    item.category == Profile && item.color.Some? && item.color.value != ""
  }

  /** Whether some coloured profile has colour `c`. */
  predicate HasColor(items: seq<InventoryItem>, c: string)
    decreases |items|
  {
    items != [] &&
    (HasColor(items[..|items| - 1], c) || (Coloured(items[|items| - 1]) && items[|items| - 1].color.value == c))
  }

  lemma {:induction false} HasColorMeaning(items: seq<InventoryItem>, c: string)
    ensures HasColor(items, c) <==> exists i :: 0 <= i < |items| && Coloured(items[i]) && items[i].color.value == c
    decreases |items|
  {
    if items != [] {
      var p := items[..|items| - 1];
      HasColorMeaning(p, c);
      assert forall i :: 0 <= i < |p| ==> p[i] == items[i];
      if exists i :: 0 <= i < |items| && Coloured(items[i]) && items[i].color.value == c {
        var i :| 0 <= i < |items| && Coloured(items[i]) && items[i].color.value == c;
        if i < |p| {
          assert Coloured(p[i]) && p[i].color.value == c;
        }
      }
    }
  }

  /** The summed quantity of the coloured profiles of colour `c`, the
      reference definition of a colour map entry. */
  function ColorQuantity(items: seq<InventoryItem>, c: string): real
    decreases |items|
  {
    if items == [] then 0.0
    else
      var x := items[|items| - 1];
      ColorQuantity(items[..|items| - 1], c) + (if Coloured(x) && x.color.value == c then x.quantity else 0.0)
  }

  lemma {:induction false} NoColorNoQuantity(items: seq<InventoryItem>, c: string)
    requires !HasColor(items, c)
    ensures ColorQuantity(items, c) == 0.0
    decreases |items|
  {
    if items != [] {
      NoColorNoQuantity(items[..|items| - 1], c);
    }
  }

  /** The colour map after the `forEach`: its keys in the order they were
      first set, and its totals. */
  datatype ColorMap = ColorMap(keys: seq<string>, totals: map<string, real>)

  /** One step of the `forEach`: add the item's quantity under its colour. */
  function AddColor(m: ColorMap, x: InventoryItem): ColorMap {
    if !Coloured(x) then m
    else
      var c := x.color.value;
      if c in m.totals then ColorMap(m.keys, m.totals[c := m.totals[c] + x.quantity])
      else ColorMap(m.keys + [c], m.totals[c := x.quantity])
  }

  function ColorTotals(items: seq<InventoryItem>): ColorMap
    decreases |items|
  {
    if items == [] then ColorMap([], map[]) else AddColor(ColorTotals(items[..|items| - 1]), items[|items| - 1])
  }

  /** The map's keys list each colour it holds exactly once. */
  lemma {:induction false} ColorKeys(items: seq<InventoryItem>)
    ensures forall c :: c in ColorTotals(items).keys <==> c in ColorTotals(items).totals
    ensures forall i, j :: 0 <= i < j < |ColorTotals(items).keys| ==>
      ColorTotals(items).keys[i] != ColorTotals(items).keys[j]
    decreases |items|
  {
    if items != [] {
      var p := items[..|items| - 1];
      var x := items[|items| - 1];
      ColorKeys(p);
      var m := ColorTotals(p);
      if Coloured(x) && x.color.value !in m.totals {
        var keys := m.keys + [x.color.value];
        assert x.color.value !in m.keys;
        forall i, j | 0 <= i < j < |keys| ensures keys[i] != keys[j] {
          if j == |m.keys| {
            assert keys[i] == m.keys[i];
          }
        }
      }
    }
  }

  /** The map holds exactly the colours of the coloured profiles. */
  lemma {:induction false} ColorDomain(items: seq<InventoryItem>)
    ensures forall c :: c in ColorTotals(items).totals <==> HasColor(items, c)
    decreases |items|
  {
    if items != [] {
      ColorDomain(items[..|items| - 1]);
    }
  }

  /** Each total is its colour's summed quantity. */
  lemma {:induction false} ColorSums(items: seq<InventoryItem>)
    ensures forall c :: c in ColorTotals(items).totals ==>
      ColorTotals(items).totals[c] == ColorQuantity(items, c)
    decreases |items|
  {
    if items != [] {
      var p := items[..|items| - 1];
      var x := items[|items| - 1];
      ColorSums(p);
      ColorDomain(p);
      if Coloured(x) && x.color.value !in ColorTotals(p).totals {
        NoColorNoQuantity(p, x.color.value);
      }
    }
  }

  /** `colorMap[a] > colorMap[b] ? a : b`, where a missing key compares as
      `undefined` (never greater). */
  function Pick(totals: map<string, real>, a: string, b: string): string {
    if a in totals && b in totals && totals[a] > totals[b] then a else b
  }

  /** `Object.keys(colorMap).reduce(Pick, 'None')`. */
  function TopOf(keys: seq<string>, totals: map<string, real>): string
    decreases |keys|
  {
    if keys == [] then "None" else Pick(totals, TopOf(keys[..|keys| - 1], totals), keys[|keys| - 1])
  }

  /** Over distinct keys (none literally named `None`), the reduction picks a
      key of the largest total, and every key after it has a strictly smaller
      total: ties go to the key seen later. */
  lemma {:induction false} TopIsLargestLatest(keys: seq<string>, totals: map<string, real>)
    requires forall k :: k in keys ==> k in totals
    requires forall i, j :: 0 <= i < j < |keys| ==> keys[i] != keys[j]
    requires "None" !in totals && keys != []
    ensures TopOf(keys, totals) in keys
    ensures forall j :: 0 <= j < |keys| ==> totals[keys[j]] <= totals[TopOf(keys, totals)]
    ensures forall i, j :: 0 <= i < j < |keys| && keys[i] == TopOf(keys, totals) ==>
      totals[keys[j]] < totals[keys[i]]
    decreases |keys|
  {
    var p := keys[..|keys| - 1];
    var b := keys[|keys| - 1];
    assert keys == p + [b];
    var top := TopOf(keys, totals);
    if p == [] {
      assert TopOf(p, totals) == "None";
      assert top == b;
    } else {
      TopIsLargestLatest(p, totals);
      var t := TopOf(p, totals);
      assert t in keys;
      if totals[t] > totals[b] {
        assert top == t;
        forall i, j | 0 <= i < j < |keys| && keys[i] == top
          ensures totals[keys[j]] < totals[keys[i]]
        {
          assert i < |p| && p[i] == t;
          if j < |p| {
            assert keys[j] == p[j];
          }
        }
      } else {
        assert top == b;
        forall j | 0 <= j < |keys|
          ensures totals[keys[j]] <= totals[top]
        {
          if j < |p| {
            assert keys[j] == p[j];
          }
        }
      }
    }
  }

  /** The top colour: `None` without coloured profiles. */
  function TopColorOf(items: seq<InventoryItem>): (top: string)
    ensures ColorTotals(items).keys == [] ==> top == "None"
  {
    var m := ColorTotals(items);
    TopOf(m.keys, m.totals)
  }

  /** The top colour is the colour of a coloured profile whose summed
      quantity no other colour exceeds. */
  lemma TopColorIsLargest(items: seq<InventoryItem>, c: string)
    requires !HasColor(items, "None")
    requires HasColor(items, c)
    ensures HasColor(items, TopColorOf(items))
    ensures ColorQuantity(items, c) <= ColorQuantity(items, TopColorOf(items))
  {
    var m := ColorTotals(items);
    ColorKeys(items);
    ColorDomain(items);
    ColorSums(items);
    assert c in m.keys;
    TopIsLargestLatest(m.keys, m.totals);
    var top := TopColorOf(items);
    var k :| 0 <= k < |m.keys| && m.keys[k] == c;
    assert m.totals[c] <= m.totals[top];
  }
  /** The `forEach` and the `reduce` of `topColor`, as loops over the
      inventory and over the map's keys. */
  method TopColor(items: seq<InventoryItem>) returns (top: string)
    ensures top == TopColorOf(items)
  {
    var keys: seq<string> := [];
    var totals: map<string, real> := map[];
    var i := 0;
    while i < |items|
      invariant 0 <= i <= |items|
      invariant ColorMap(keys, totals) == ColorTotals(items[..i])
    {
      assert items[..i + 1][..i] == items[..i];
      var x := items[i];
      if x.category == Profile && x.color.Some? && x.color.value != "" {
        var c := x.color.value;
        if c in totals {
          totals := totals[c := totals[c] + x.quantity];
        } else {
          keys := keys + [c];
          totals := totals[c := x.quantity];
        }
      }
      i := i + 1;
    }
    assert items[..i] == items;
    ColorKeys(items);
    top := "None";
    var k := 0;
    while k < |keys|
      invariant 0 <= k <= |keys|
      invariant top == TopOf(keys[..k], totals)
    {
      assert keys[..k + 1][..k] == keys[..k];
      var b := keys[k];
      if top in totals && totals[top] > totals[b] {
      } else {
        top := b;
      }
      k := k + 1;
    }
    assert keys[..k] == keys;
  }
}
