/** The inventory page: the search box, the stock-value and low-stock cards,
    and the badge on each row. The page reads `supplier` and `reorderPoint`,
    which seed items do not have; reading a missing field gives `undefined`,
    so a comparison with it is false and calling a method on it throws. */
module InventoryPage {
  import opened Wrappers
  import Text
  import Seqs
  import Store
  import opened InventoryService

  // ---------------------------------------------------------------------
  // Search
  // ---------------------------------------------------------------------

  /** The search test for one item: name, category, location, then
      supplier, stopping at the first match. An item without a supplier
      that misses on the first three throws a TypeError. */
  function ItemTest(q: string): InventoryItem -> Result<bool, Failure> {
    (x: InventoryItem) =>
      if Text.Matches(x.name, q) || Text.Matches(x.category, q) || Text.Matches(x.location, q) then Ok(true)
      else if x.supplier.None? then Err(TypeError)
      else Ok(Text.Matches(x.supplier.value, q))
  }

  /** The test does not throw on `x`. */
  predicate Searchable(q: string, x: InventoryItem) {
    Text.Matches(x.name, q) || Text.Matches(x.category, q) || Text.Matches(x.location, q) || x.supplier.Some?
  }

  /** `filteredInventory`: the matching items in order, or the TypeError of
      the first item whose test throws. */
  function Search(items: seq<InventoryItem>, q: string): (r: Result<seq<InventoryItem>, Failure>)
    ensures r.Ok? <==> forall i :: 0 <= i < |items| ==> Searchable(q, items[i])
    ensures r.Err? ==> r.error == TypeError
    ensures r.Ok? ==> |r.value| <= |items|
  {
    var r := Seqs.FilterOrThrow(items, ItemTest(q));
    assert forall i :: 0 <= i < |items| ==> (ItemTest(q)(items[i]).Ok? <==> Searchable(q, items[i]));
    r
  }

  /** One of the four fields contains the query. */
  predicate Hit(q: string, x: InventoryItem) {
    Text.Matches(x.name, q) || Text.Matches(x.category, q) || Text.Matches(x.location, q)
    || (x.supplier.Some? && Text.Matches(x.supplier.value, q))
  }

  /** When the search succeeds, an item is listed exactly when it is in the
      inventory and one of its four fields contains the query. */
  lemma SearchMembership(items: seq<InventoryItem>, q: string, x: InventoryItem)
    requires Search(items, q).Ok?
    ensures x in Search(items, q).value <==> x in items && Hit(q, x)
  {
    Seqs.FilterMembership(items, Seqs.Holds(ItemTest(q)), x);
  }

  /** The empty query matches every name, so it never reaches the supplier
      and keeps every item, in order. */
  lemma SearchEmptyQuery(items: seq<InventoryItem>)
    ensures Search(items, "") == Ok(items)
  {
    forall i | 0 <= i < |items|
      ensures Seqs.Holds(ItemTest(""))(items[i])
    {
      Text.MatchesEmptyQuery(items[i].name);
    }
    Seqs.FilterAll(items, Seqs.Holds(ItemTest("")));
  }

  /** On the seed inventory the query "#" misses the first item's name,
      category and location, reaches its missing supplier and throws. */
  lemma SeedSearchThrows()
    ensures Search(Seeds, "#") == Err(TypeError)
  {
    SeedNameMisses();
    SeedCategoryMisses();
    SeedLocationMisses();
    assert !Searchable("#", Seeds[0]);
  }

  lemma SeedNameMisses()
    ensures !Text.Matches(Seeds[0].name, "#")
  {
    Text.NoMatchWithoutChar(Seeds[0].name, '#');
  }

  lemma SeedCategoryMisses()
    ensures !Text.Matches(Seeds[0].category, "#")
  {
    Text.NoMatchWithoutChar(Seeds[0].category, '#');
  }

  lemma SeedLocationMisses()
    ensures !Text.Matches(Seeds[0].location, "#")
  {
    Text.NoMatchWithoutChar(Seeds[0].location, '#');
  }

  // ---------------------------------------------------------------------
  // Cards
  // ---------------------------------------------------------------------

  /** `totalStockValue`: quantity times unit cost, summed over the whole
      inventory (in cents). */
  function StockValue(items: seq<InventoryItem>): (v: int)
    ensures (forall i :: 0 <= i < |items| ==> items[i].quantity >= 0 && items[i].unitCost >= 0) ==> v >= 0
  {
    if |items| == 0 then 0
    else
      assert forall i :: 0 <= i < |items| - 1 ==> items[1..][i] == items[i + 1];
      items[0].quantity * items[0].unitCost + StockValue(items[1..])
  }

  /** The value of two lists laid end to end is the sum of their values. */
  lemma {:induction false} StockValueAppend(a: seq<InventoryItem>, b: seq<InventoryItem>)
    ensures StockValue(a + b) == StockValue(a) + StockValue(b)
  {
    if |a| == 0 {
      assert a + b == b;
    } else {
      assert (a + b)[1..] == a[1..] + b;
      StockValueAppend(a[1..], b);
    }
  }

  /** Adding an item raises the value by exactly that item's value. */
  lemma AddRaisesStockValue(items: seq<InventoryItem>, d: ItemDraft, digits: Text.Digits3)
    ensures StockValue(AddItem(items, d, digits).items) == StockValue(items) + d.quantity * d.unitCost
  {
    var x := AddItem(items, d, digits).value;
    StockValueAppend(items, [x]);
    assert [x][1..] == [];
  }

  /** `item.quantity <= item.reorderPoint`: false when there is no reorder
      point. */
  predicate IsLow(x: InventoryItem) {
    x.reorderPoint.Some? && x.quantity <= x.reorderPoint.value
  }

  function LowTest(): InventoryItem -> bool {
    (x: InventoryItem) => IsLow(x)
  }

  /** `lowStockItems`: the number of low items in the whole inventory. */
  function LowStockCount(items: seq<InventoryItem>): (n: nat)
    ensures n <= |items|
    ensures n == |items| <==> forall i :: 0 <= i < |items| ==> IsLow(items[i])
  {
    Seqs.FilterKeepsLength(items, LowTest());
    Seqs.Count(items, LowTest())
  }

  /** Items without a reorder point never count as low, however small
      their quantity; the seed items have none, so the card shows 0. */
  lemma NoReorderPointNoLowStock(items: seq<InventoryItem>)
    requires forall i :: 0 <= i < |items| ==> items[i].reorderPoint.None?
    ensures LowStockCount(items) == 0
  {
    Seqs.FilterNone(items, LowTest());
  }

  lemma SeedsNeverLow()
    ensures LowStockCount(Seeds) == 0
  {
    NoReorderPointNoLowStock(Seeds);
  }

  /** The badge on a row. */
  datatype StockBadge = LowStockBadge | InStockBadge

  function Badge(x: InventoryItem): (b: StockBadge)
    ensures b == LowStockBadge <==> IsLow(x)
  {
    if IsLow(x) then LowStockBadge else InStockBadge
  }

  function HasLowBadge(): InventoryItem -> bool {
    (x: InventoryItem) => Badge(x) == LowStockBadge
  }

  /** With an empty query every item is listed, and the rows showing a "Low
      Stock" badge are exactly as many as the low-stock card counts. */
  lemma BadgesMatchCard(items: seq<InventoryItem>)
    ensures Search(items, "").Ok?
    ensures Seqs.Count(Search(items, "").value, HasLowBadge()) == LowStockCount(items)
  {
    SearchEmptyQuery(items);
    assert forall x :: HasLowBadge()(x) == LowTest()(x);
    Seqs.SameFilter(items, HasLowBadge(), LowTest());
  }
}
