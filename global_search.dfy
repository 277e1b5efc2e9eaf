/** The header's search box (`components/common/GlobalSearch.tsx`): for a
    non-empty term, the orders whose id, the customers whose name and the
    inventory items whose name or SKU contain the term ignoring case, as
    links, orders first, then customers, then items. The 300 ms debounce is
    not modelled: the term is the debounced one. */
module GlobalSearch {
  import opened Types
  import opened Collections
  import Text

  datatype Kind = OrderHit | CustomerHit | ItemHit

  datatype SearchResult = SearchResult(kind: Kind, id: string, title: string, link: string)

  /** Whether `term` occurs in `field`, both lower-cased. */
  predicate Found(field: string, term: string) {
    Text.Contains(Text.Lower(field), Text.Lower(term))
  }

  function OrderResult(term: string): SalesOrder -> Option<SearchResult> {
    (o: SalesOrder) => if Found(o.id, term) then Some(SearchResult(OrderHit, o.id, "Order #" + o.id, "/orders/" + o.id)) else None
  }

  function CustomerResult(term: string): Customer -> Option<SearchResult> {
    (c: Customer) => if Found(c.name, term) then Some(SearchResult(CustomerHit, c.id, c.name, "/customers")) else None
  }

  function ItemResult(term: string): InventoryItem -> Option<SearchResult> {
    (i: InventoryItem) => if Found(i.name, term) || Found(i.sku, term)
      then Some(SearchResult(ItemHit, i.id, i.name + " (" + i.sku + ")", "/inventory"))
      else None
  }

  /** The results the effect stores for the term. */
  function Search(term: string, orders: seq<SalesOrder>, customers: seq<Customer>, inventory: seq<InventoryItem>): (r: seq<SearchResult>)
    ensures term == "" ==> r == []
    ensures |r| <= |orders| + |customers| + |inventory|
  {
    if term == "" then []
    else FilterMap(orders, OrderResult(term)) + FilterMap(customers, CustomerResult(term)) + FilterMap(inventory, ItemResult(term))
  }

  function Rank(k: Kind): nat {
    match k
    case OrderHit => 0
    case CustomerHit => 1
    case ItemHit => 2
  }

  lemma {:induction false} HitsOfKind<T>(s: seq<T>, f: T -> Option<SearchResult>, k: Kind)
    requires forall x, y :: f(x) == Some(y) ==> y.kind == k
    ensures forall y :: y in FilterMap(s, f) ==> y.kind == k
  {
    forall y | y in FilterMap(s, f) ensures y.kind == k {
      FilterMapMembership(s, f, y);
    }
  }

  /** Order results come before customer results, which come before item
      results. */
  lemma SearchGroups(term: string, orders: seq<SalesOrder>, customers: seq<Customer>, inventory: seq<InventoryItem>)
    ensures var r := Search(term, orders, customers, inventory);
      forall i, j :: 0 <= i < j < |r| ==> Rank(r[i].kind) <= Rank(r[j].kind)
  {
    if term != "" {
      var a := FilterMap(orders, OrderResult(term));
      var b := FilterMap(customers, CustomerResult(term));
      var c := FilterMap(inventory, ItemResult(term));
      HitsOfKind(orders, OrderResult(term), OrderHit);
      HitsOfKind(customers, CustomerResult(term), CustomerHit);
      HitsOfKind(inventory, ItemResult(term), ItemHit);
      var r := a + b + c;
      forall i | 0 <= i < |r| ensures Rank(r[i].kind) == if i < |a| then 0 else if i < |a| + |b| then 1 else 2 {
        if i < |a| {
          assert r[i] in a;
        } else if i < |a| + |b| {
          assert r[i] == b[i - |a|];
          assert r[i] in b;
        } else {
          assert r[i] == c[i - |a| - |b|];
          assert r[i] in c;
        }
      }
    }
  }

  /** For a non-empty term, an order is listed, as `Order #<id>` linking to
      its page, exactly when its id contains the term ignoring case. */
  lemma OrderHits(term: string, orders: seq<SalesOrder>, customers: seq<Customer>, inventory: seq<InventoryItem>, id: string)
    requires term != ""
    ensures SearchResult(OrderHit, id, "Order #" + id, "/orders/" + id) in Search(term, orders, customers, inventory)
      <==> exists i :: 0 <= i < |orders| && orders[i].id == id && Found(id, term)
  {
    var y := SearchResult(OrderHit, id, "Order #" + id, "/orders/" + id);
    FilterMapMembership(orders, OrderResult(term), y);
    HitsOfKind(customers, CustomerResult(term), CustomerHit);
    HitsOfKind(inventory, ItemResult(term), ItemHit);
  }

  /** For a non-empty term, a customer is listed, linking to the customer
      list, exactly when its name contains the term ignoring case. */
  lemma CustomerHits(term: string, orders: seq<SalesOrder>, customers: seq<Customer>, inventory: seq<InventoryItem>, c: Customer)
    requires term != "" && c in customers
    ensures SearchResult(CustomerHit, c.id, c.name, "/customers") in Search(term, orders, customers, inventory)
      <==> Found(c.name, term)
  {
    var y := SearchResult(CustomerHit, c.id, c.name, "/customers");
    FilterMapMembership(customers, CustomerResult(term), y);
    var k :| 0 <= k < |customers| && customers[k] == c;
    assert Found(c.name, term) ==> CustomerResult(term)(customers[k]) == Some(y);
    HitsOfKind(orders, OrderResult(term), OrderHit);
    HitsOfKind(inventory, ItemResult(term), ItemHit);
  }

  /** For a non-empty term, an item is listed, as `<name> (<sku>)` linking to
      the inventory, exactly when its name or its SKU contains the term
      ignoring case. */
  lemma ItemHits(term: string, orders: seq<SalesOrder>, customers: seq<Customer>, inventory: seq<InventoryItem>, x: InventoryItem)
    requires term != "" && x in inventory
    ensures Found(x.name, term) || Found(x.sku, term) ==>
      SearchResult(ItemHit, x.id, x.name + " (" + x.sku + ")", "/inventory") in Search(term, orders, customers, inventory)
    ensures SearchResult(ItemHit, x.id, x.name + " (" + x.sku + ")", "/inventory") in Search(term, orders, customers, inventory) ==>
      exists k :: 0 <= k < |inventory| && inventory[k].id == x.id && (Found(inventory[k].name, term) || Found(inventory[k].sku, term))
  {
    var y := SearchResult(ItemHit, x.id, x.name + " (" + x.sku + ")", "/inventory");
    FilterMapMembership(inventory, ItemResult(term), y);
    var k :| 0 <= k < |inventory| && inventory[k] == x;
    assert Found(x.name, term) || Found(x.sku, term) ==> ItemResult(term)(inventory[k]) == Some(y);
    HitsOfKind(orders, OrderResult(term), OrderHit);
    HitsOfKind(customers, CustomerResult(term), CustomerHit);
  }
}
