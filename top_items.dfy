/** The "top items by value" chart (`components/dashboard/TopItemsChart.tsx`):
    each item becomes a bar of its stock value under a shortened name, the
    bars are sorted by value from the largest, the first five are kept and
    the result is reversed for a horizontal chart. */
module TopItems {
  import opened Types

  /** One bar of the chart. */
  datatype Bar = Bar(name: string, value: real)

  /** Names longer than 20 characters are cut to 18 and marked with `...`. */
  function Label(name: string): (r: string)
    ensures |name| > 20 ==> |r| == 21 && r[..18] == name[..18] && r[18..] == "..."
    ensures |name| <= 20 ==> r == name
  {
    if |name| > 20 then name[..18] + "..." else name
  }

  function BarOf(item: InventoryItem): (b: Bar)
    ensures b.value == item.quantity * item.cost
  {
    Bar(Label(item.name), ItemValue(item))
  }

  /** The mapped copy of the inventory, one bar per item in order. */
  function Bars(items: seq<InventoryItem>): (r: seq<Bar>)
    ensures |r| == |items| && forall i :: 0 <= i < |items| ==> r[i] == BarOf(items[i])
  {
    seq(|items|, i requires 0 <= i < |items| => BarOf(items[i]))
  }

  predicate Descending(s: seq<Bar>) {
    forall i, j :: 0 <= i < j < |s| ==> s[i].value >= s[j].value
  }

  predicate Ascending(s: seq<Bar>) {
    forall i, j :: 0 <= i < j < |s| ==> s[i].value <= s[j].value
  }

  /** Inserts `x` into a descending sequence after every bar at least as
      large, as a stable sort places a later element among equals. */
  function Insert(x: Bar, s: seq<Bar>): (r: seq<Bar>)
    ensures |r| == |s| + 1
    ensures multiset(r) == multiset(s) + multiset{x}
    decreases |s|
  {
    if s == [] then [x]
    else if s[0].value >= x.value then
      assert s == [s[0]] + s[1..];
      [s[0]] + Insert(x, s[1..])
    else [x] + s
  }

  lemma {:induction false} InsertDescending(x: Bar, s: seq<Bar>)
    requires Descending(s)
    ensures Descending(Insert(x, s))
    decreases |s|
  {
    if s != [] && s[0].value >= x.value {
      InsertDescending(x, s[1..]);
      var r := Insert(x, s);
      assert r == [s[0]] + Insert(x, s[1..]);
      forall k | 0 <= k < |r| ensures r[k].value <= s[0].value {
        if k > 0 {
          var y := r[k];
          assert y in multiset(Insert(x, s[1..]));
          assert y in multiset(s[1..]) || y == x;
          if y != x {
            var m :| 0 <= m < |s[1..]| && s[1..][m] == y;
            assert s[m + 1] == y;
          }
        }
      }
    }
  }

  /** `.sort((a, b) => b.value - a.value)`: an insertion sort, largest first. */
  function SortDesc(s: seq<Bar>): (r: seq<Bar>)
    ensures |r| == |s|
    ensures multiset(r) == multiset(s)
    decreases |s|
  {
    if s == [] then []
    else
      assert s == s[..|s| - 1] + [s[|s| - 1]];
      Insert(s[|s| - 1], SortDesc(s[..|s| - 1]))
  }

  lemma {:induction false} SortDescSorted(s: seq<Bar>)
    ensures Descending(SortDesc(s))
    decreases |s|
  {
    if s != [] {
      SortDescSorted(s[..|s| - 1]);
      InsertDescending(s[|s| - 1], SortDesc(s[..|s| - 1]));
    }
  }

  function Reversed(s: seq<Bar>): (r: seq<Bar>)
    ensures |r| == |s| && forall i :: 0 <= i < |s| ==> r[i] == s[|s| - 1 - i]
    decreases |s|
  {
    if s == [] then [] else [s[|s| - 1]] + Reversed(s[..|s| - 1])
  }

  lemma {:induction false} ReversedMultiset(s: seq<Bar>)
    ensures multiset(Reversed(s)) == multiset(s)
    decreases |s|
  {
    if s != [] {
      ReversedMultiset(s[..|s| - 1]);
      assert s == s[..|s| - 1] + [s[|s| - 1]];
    }
  }

  function Min(a: int, b: int): int {
    if a < b then a else b
  }

  /** `topItems`: the five largest bars, smallest first. */
  function TopItemsOf(items: seq<InventoryItem>): seq<Bar> {
    var sorted := SortDesc(Bars(items));
    Reversed(sorted[..Min(5, |sorted|)])
  }

  /** Reversing a descending sequence gives an ascending one. */
  lemma ReversedAscending(s: seq<Bar>)
    requires Descending(s)
    ensures Ascending(Reversed(s))
  {
    var r := Reversed(s);
    forall i, j | 0 <= i < j < |r| ensures r[i].value <= r[j].value {
      assert r[i] == s[|s| - 1 - i] && r[j] == s[|s| - 1 - j];
    }
  }

  /** Every bar of the head of a descending sequence is at least as large as
      any bar of its tail. */
  lemma HeadDominatesTail(sorted: seq<Bar>, n: nat)
    requires Descending(sorted) && n <= |sorted|
    ensures forall x, y :: x in sorted[n..] && y in sorted[..n] ==> x.value <= y.value
  {
    forall x, y | x in sorted[n..] && y in sorted[..n] ensures x.value <= y.value {
      var i :| 0 <= i < |sorted[n..]| && sorted[n..][i] == x;
      var j :| 0 <= j < n && sorted[..n][j] == y;
      assert sorted[j] == y && sorted[n + i] == x;
    }
  }

  /** At most five bars, in ascending value. */
  lemma TopItemsShape(items: seq<InventoryItem>)
    ensures |TopItemsOf(items)| == Min(5, |items|)
    ensures Ascending(TopItemsOf(items))
  {
    var sorted := SortDesc(Bars(items));
    SortDescSorted(Bars(items));
    var top := sorted[..Min(5, |sorted|)];
    assert Descending(top);
    ReversedAscending(top);
  }

  /** Cutting a descending sequence at `n` and reversing the head leaves a
      tail none of whose bars is larger than a bar of the reversed head. */
  lemma SplitAt(sorted: seq<Bar>, n: nat)
    requires Descending(sorted) && n <= |sorted|
    ensures multiset(Reversed(sorted[..n])) + multiset(sorted[n..]) == multiset(sorted)
    ensures forall x, y :: x in sorted[n..] && y in Reversed(sorted[..n]) ==> x.value <= y.value
  {
    var top := sorted[..n];
    assert sorted == top + sorted[n..];
    ReversedMultiset(top);
    HeadDominatesTail(sorted, n);
    forall y | y in Reversed(top) ensures y in top {
      assert y in multiset(Reversed(top));
    }
  }

  /** The bars shown are taken from the inventory's bars, and no bar left
      out is larger than a bar shown. */
  lemma TopItemsAreLargest(items: seq<InventoryItem>)
    ensures exists rest: seq<Bar> :: (multiset(TopItemsOf(items)) + multiset(rest) == multiset(Bars(items))
      && forall x, y :: x in rest && y in TopItemsOf(items) ==> x.value <= y.value)
  {
    var sorted := SortDesc(Bars(items));
    SortDescSorted(Bars(items));
    var n := Min(5, |sorted|);
    SplitAt(sorted, n);
    var rest := sorted[n..];
    assert multiset(TopItemsOf(items)) + multiset(rest) == multiset(Bars(items));
  }
}
