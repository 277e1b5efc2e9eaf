/** The stock-value-by-category chart
    (`components/dashboard/CategoryDistributionChart.tsx`): a `forEach` adds
    each item's value under its category in a dictionary, whose entries, in
    insertion order, become the chart's slices. */
module CategoryChart {
  import opened Types
  import opened Collections

  /** One slice: a category and its stock value. */
  datatype Slice = Slice(name: InventoryCategory, value: real)

  /** The dictionary: its keys in insertion order and their totals. */
  datatype Tally = Tally(keys: seq<InventoryCategory>, totals: map<InventoryCategory, real>)

  /** One step of the `forEach`: `(values[c] || 0) + value`. */
  function AddItem(t: Tally, x: InventoryItem): Tally {
    var c := x.category;
    if c in t.totals then Tally(t.keys, t.totals[c := t.totals[c] + ItemValue(x)])
    else Tally(t.keys + [c], t.totals[c := ItemValue(x)])
  }

  function TallyOf(items: seq<InventoryItem>): Tally
    decreases |items|
  {
    if items == [] then Tally([], map[]) else AddItem(TallyOf(items[..|items| - 1]), items[|items| - 1])
  }

  /** `Object.entries(values).map(...)`. */
  function Slices(t: Tally): (r: seq<Slice>)
    requires forall c :: c in t.keys ==> c in t.totals
    ensures |r| == |t.keys| && forall i :: 0 <= i < |r| ==> r[i] == Slice(t.keys[i], t.totals[t.keys[i]])
  {
    seq(|t.keys|, i requires 0 <= i < |t.keys| => Slice(t.keys[i], t.totals[t.keys[i]]))
  }

  /** The categories of the items, in inventory order. */
  function Categories(items: seq<InventoryItem>): (r: seq<InventoryCategory>)
    ensures |r| == |items| && forall i :: 0 <= i < |items| ==> r[i] == items[i].category
  {
    seq(|items|, i requires 0 <= i < |items| => items[i].category)
  }

  /** Reference definition of a slice's value: the summed stock value of the
      items of category `c`. */
  function CategoryValue(items: seq<InventoryItem>, c: InventoryCategory): real
    decreases |items|
  {
    if items == [] then 0.0
    else
      var x := items[|items| - 1];
      CategoryValue(items[..|items| - 1], c) + (if x.category == c then ItemValue(x) else 0.0)
  }

  /** The sum of the totals over a list of keys. */
  function SumOver(keys: seq<InventoryCategory>, totals: map<InventoryCategory, real>): real
    decreases |keys|
  {
    if keys == [] then 0.0
    else
      var k := keys[|keys| - 1];
      SumOver(keys[..|keys| - 1], totals) + (if k in totals then totals[k] else 0.0)
  }

  /** The dictionary's keys list each category it holds exactly once. */
  lemma {:induction false} TallyDomain(items: seq<InventoryItem>)
    ensures forall c :: c in TallyOf(items).keys <==> c in TallyOf(items).totals
    ensures forall i, j :: 0 <= i < j < |TallyOf(items).keys| ==> TallyOf(items).keys[i] != TallyOf(items).keys[j]
    decreases |items|
  {
    if items != [] {
      var p := items[..|items| - 1];
      var x := items[|items| - 1];
      TallyDomain(p);
      var t := TallyOf(p);
      if x.category !in t.totals {
        var keys := t.keys + [x.category];
        forall i, j | 0 <= i < j < |keys| ensures keys[i] != keys[j] {
          if j == |t.keys| {
            assert keys[i] == t.keys[i];
          }
        }
      }
    }
  }

  /** The dictionary's keys are the categories present, in order of first
      appearance. */
  lemma {:induction false} TallyKeys(items: seq<InventoryItem>)
    ensures TallyOf(items).keys == Distinct(Categories(items))
    decreases |items|
  {
    if items != [] {
      var p := items[..|items| - 1];
      TallyKeys(p);
      TallyDomain(p);
      assert Categories(items)[..|items| - 1] == Categories(p);
    }
  }

  /** Each total is its category's summed value. */
  lemma {:induction false} TallyValues(items: seq<InventoryItem>)
    ensures forall c :: c in TallyOf(items).totals ==> TallyOf(items).totals[c] == CategoryValue(items, c)
    ensures forall c :: c !in TallyOf(items).totals ==> CategoryValue(items, c) == 0.0
    decreases |items|
  {
    if items != [] {
      TallyValues(items[..|items| - 1]);
    }
  }

  /** Adding `d` to the total of one key that a distinct key list holds adds
      `d` to the sum. */
  lemma {:induction false} SumOverBump(keys: seq<InventoryCategory>, totals: map<InventoryCategory, real>, c: InventoryCategory, d: real)
    requires forall k :: k in keys ==> k in totals
    requires c in totals
    requires forall i, j :: 0 <= i < j < |keys| ==> keys[i] != keys[j]
    ensures SumOver(keys, totals[c := totals[c] + d]) == SumOver(keys, totals) + (if c in keys then d else 0.0)
    decreases |keys|
  {
    if keys != [] {
      var p := keys[..|keys| - 1];
      assert forall i :: 0 <= i < |p| ==> p[i] == keys[i];
      SumOverBump(p, totals, c, d);
      assert c in keys <==> c in p || c == keys[|keys| - 1];
      if c == keys[|keys| - 1] {
        assert c !in p;
      }
    }
  }

  /** Setting the total of a key the list does not hold leaves the sum. */
  lemma {:induction false} SumOverOther(keys: seq<InventoryCategory>, totals: map<InventoryCategory, real>, c: InventoryCategory, v: real)
    requires forall k :: k in keys ==> k in totals
    requires c !in keys
    ensures SumOver(keys, totals[c := v]) == SumOver(keys, totals)
    decreases |keys|
  {
    if keys != [] {
      var p := keys[..|keys| - 1];
      assert forall k :: k in p ==> k in keys;
      SumOverOther(p, totals, c, v);
    }
  }

  /** Extending the key list with a fresh key adds its total to the sum. */
  lemma SumOverFresh(keys: seq<InventoryCategory>, totals: map<InventoryCategory, real>, c: InventoryCategory, v: real)
    requires forall k :: k in keys ==> k in totals
    requires c !in keys
    ensures SumOver(keys + [c], totals[c := v]) == SumOver(keys, totals) + v
  {
    var m := totals[c := v];
    assert (keys + [c])[..|keys|] == keys;
    assert SumOver(keys + [c], m) == SumOver(keys, m) + v;
    SumOverOther(keys, totals, c, v);
  }

  /** One step of the `forEach` adds the item's value to the sum. */
  lemma AddItemSum(t: Tally, x: InventoryItem)
    requires forall c :: c in t.keys <==> c in t.totals
    requires forall i, j :: 0 <= i < j < |t.keys| ==> t.keys[i] != t.keys[j]
    ensures SumOver(AddItem(t, x).keys, AddItem(t, x).totals) == SumOver(t.keys, t.totals) + ItemValue(x)
  {
    var c, d := x.category, ItemValue(x);
    if c in t.totals {
      SumOverBump(t.keys, t.totals, c, d);
    } else {
      SumOverFresh(t.keys, t.totals, c, d);
    }
  }

  /** The slices add up to the stock value of the whole inventory. */
  lemma {:induction false} TallySum(items: seq<InventoryItem>)
    ensures SumOver(TallyOf(items).keys, TallyOf(items).totals) == InventoryValue(items)
    decreases |items|
  {
    if items != [] {
      var p := items[..|items| - 1];
      TallySum(p);
      TallyDomain(p);
      AddItemSum(TallyOf(p), items[|items| - 1]);
    }
  }

  /** `chartData`: the slices after the loop. */
  function ChartOf(items: seq<InventoryItem>): seq<Slice> {
    TallyDomain(items);
    Slices(TallyOf(items))
  }

  function Names(r: seq<Slice>): (names: seq<InventoryCategory>)
    ensures |names| == |r| && forall i :: 0 <= i < |r| ==> names[i] == r[i].name
  {
    seq(|r|, i requires 0 <= i < |r| => r[i].name)
  }

  /** One slice per category present, in order of first appearance, each
      worth its category's summed stock value. */
  lemma ChartMeaning(items: seq<InventoryItem>)
    ensures Names(ChartOf(items)) == Distinct(Categories(items))
    ensures forall c :: c in Names(ChartOf(items)) <==> c in Categories(items)
    ensures forall i :: 0 <= i < |ChartOf(items)| ==> ChartOf(items)[i].value == CategoryValue(items, ChartOf(items)[i].name)
  {
    TallyKeys(items);
    TallyDomain(items);
    TallyValues(items);
    assert Names(ChartOf(items)) == TallyOf(items).keys;
  }

  /** The slices' values add up to the stock value of the inventory. */
  lemma ChartSum(items: seq<InventoryItem>)
    ensures SliceSum(ChartOf(items)) == InventoryValue(items)
  {
    TallyDomain(items);
    TallySum(items);
    var t := TallyOf(items);
    SliceSumOfKeys(t.keys, t.totals);
  }

  function SliceSum(r: seq<Slice>): real
    decreases |r|
  {
    if r == [] then 0.0 else SliceSum(r[..|r| - 1]) + r[|r| - 1].value
  }

  lemma {:induction false} SliceSumOfKeys(keys: seq<InventoryCategory>, totals: map<InventoryCategory, real>)
    requires forall c :: c in keys ==> c in totals
    ensures SliceSum(Slices(Tally(keys, totals))) == SumOver(keys, totals)
    decreases |keys|
  {
    if keys != [] {
      var p := keys[..|keys| - 1];
      SliceSumOfKeys(p, totals);
      assert Slices(Tally(keys, totals))[..|p|] == Slices(Tally(p, totals));
    }
  }

  /** The `forEach` over the inventory and the conversion to entries. */
  method ChartData(items: seq<InventoryItem>) returns (slices: seq<Slice>)
    ensures slices == ChartOf(items)
  {
    var keys: seq<InventoryCategory> := [];
    var values: map<InventoryCategory, real> := map[];
    var i := 0;
    while i < |items|
      invariant 0 <= i <= |items|
      invariant Tally(keys, values) == TallyOf(items[..i])
    {
      assert items[..i + 1][..i] == items[..i];
      var x := items[i];
      var value := ItemValue(x);
      if x.category in values {
        values := values[x.category := values[x.category] + value];
      } else {
        keys := keys + [x.category];
        values := values[x.category := value];
      }
      assert Tally(keys, values) == AddItem(TallyOf(items[..i]), x);
      i := i + 1;
    }
    assert items[..i] == items;
    TallyDomain(items);
    slices := [];
    var k := 0;
    while k < |keys|
      invariant 0 <= k <= |keys|
      invariant slices == Slices(Tally(keys[..k], values))
    {
      assert keys[..k + 1][..k] == keys[..k];
      slices := slices + [Slice(keys[k], values[keys[k]])];
      k := k + 1;
    }
    assert keys[..k] == keys;
  }
}
