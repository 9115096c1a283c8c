/** The product catalog page. It draws from its own five-entry list, not
    from the product service, and keeps each status as display text. */
module ProductsPage {
  import Text
  import Seqs
  import Ui
  import Products

  /** A catalog entry; `price` is in cents and `status` is free text. */
  datatype CatalogEntry = CatalogEntry(id: string, name: string, category: string, price: int, stock: int, status: string)

  const Catalog: seq<CatalogEntry> := [
    CatalogEntry("PRD001", "Ergonomic Office Chair", "Furniture", 24999, 45, "In Stock"),
    CatalogEntry("PRD002", "Standing Desk - Oak Finish", "Furniture", 39999, 12, "Low Stock"),
    CatalogEntry("PRD003", "Wireless Keyboard", "Electronics", 8999, 68, "In Stock"),
    CatalogEntry("PRD004", "27-inch 4K Monitor", "Electronics", 34999, 0, "Out of Stock"),
    CatalogEntry("PRD005", "Leather Notebook", "Stationery", 2499, 124, "In Stock")
  ]

  // ---------------------------------------------------------------------
  // Search
  // ---------------------------------------------------------------------

  predicate MatchesQuery(q: string, e: CatalogEntry) {
    Text.Matches(e.name, q) || Text.Matches(e.category, q) || Text.Matches(e.id, q)
  }

  function Matcher(q: string): CatalogEntry -> bool {
    (e: CatalogEntry) => MatchesQuery(q, e)
  }

  /** `filteredProducts`. */
  function Search(es: seq<CatalogEntry>, q: string): (r: seq<CatalogEntry>)
    ensures |r| <= |es|
    ensures forall i :: 0 <= i < |r| ==> MatchesQuery(q, r[i])
  {
    Seqs.Filter(es, Matcher(q))
  }

  /** An entry is listed exactly when it is in the list and its name,
      category or id contains the query; the empty query lists all. */
  lemma SearchLaws(es: seq<CatalogEntry>, q: string, e: CatalogEntry)
    ensures e in Search(es, q) <==> e in es && MatchesQuery(q, e)
    ensures Search(es, "") == es
  {
    Seqs.FilterMembership(es, Matcher(q), e);
    forall i | 0 <= i < |es|
      ensures Matcher("")(es[i])
    {
      Text.MatchesEmptyQuery(es[i].name);
    }
    Seqs.FilterAll(es, Matcher(""));
  }

  // ---------------------------------------------------------------------
  // Cards
  // ---------------------------------------------------------------------

  /** The three categories the breakdown card lists. */
  const FixedCategories: seq<string> := ["Furniture", "Electronics", "Stationery"]

  function InCategory(c: string): CatalogEntry -> bool {
    (e: CatalogEntry) => e.category == c
  }

  function WithStatus(shown: string): CatalogEntry -> bool {
    (e: CatalogEntry) => e.status == shown
  }

  /** The three category counts, in card order. */
  function CategoryBreakdown(es: seq<CatalogEntry>): (r: seq<nat>)
    ensures |r| == 3
    ensures forall i :: 0 <= i < 3 ==> r[i] == Seqs.Count(es, InCategory(FixedCategories[i]))
    ensures r[0] + r[1] + r[2] <= |es|
  {
    Seqs.CountDisjoint3(es, InCategory("Furniture"), InCategory("Electronics"), InCategory("Stationery"));
    [Seqs.Count(es, InCategory("Furniture")), Seqs.Count(es, InCategory("Electronics")),
     Seqs.Count(es, InCategory("Stationery"))]
  }

  /** An entry outside the three categories is counted by none of them, so
      the breakdown then falls short of the total. */
  lemma UnlistedCategoryFallsShort(es: seq<CatalogEntry>, k: nat)
    requires k < |es| && es[k].category !in FixedCategories
    ensures var r := CategoryBreakdown(es); r[0] + r[1] + r[2] < |es|
  {
    var a, b, c := InCategory("Furniture"), InCategory("Electronics"), InCategory("Stationery");
    var ab := (e: CatalogEntry) => a(e) || b(e);
    var abc := (e: CatalogEntry) => ab(e) || c(e);
    var none := (e: CatalogEntry) => !abc(e);
    Seqs.CountSplit(es, a, b, ab);
    Seqs.CountSplit(es, ab, c, abc);
    Seqs.CountComplement(es, abc, none);
    Seqs.CountAtLeastOne(es, none, k);
  }

  /** The alert card: counts of the stored status text, whatever the stock. */
  datatype Alerts = Alerts(lowStock: nat, outOfStock: nat)

  function StockAlerts(es: seq<CatalogEntry>): (r: Alerts)
    ensures r.lowStock == Seqs.Count(es, WithStatus("Low Stock"))
    ensures r.outOfStock == Seqs.Count(es, WithStatus("Out of Stock"))
    ensures r.lowStock + r.outOfStock <= |es|
  {
    Seqs.CountDisjoint3(es, WithStatus("Low Stock"), WithStatus("Out of Stock"), WithStatus("In Stock"));
    Alerts(Seqs.Count(es, WithStatus("Low Stock")), Seqs.Count(es, WithStatus("Out of Stock")))
  }

  /** The alerts read the status text, not the stock: an entry with no stock
      whose text says "In Stock" raises no alert. */
  lemma AlertsIgnoreStock(e: CatalogEntry)
    requires e.stock == 0 && e.status == "In Stock"
    ensures StockAlerts([e]) == Alerts(0, 0)
  {
    assert [e][1..] == [];
  }

  function Tally(p: CatalogEntry -> bool, e: CatalogEntry): nat {
    if p(e) then 1 else 0
  }

  /** A count over the catalog, entry by entry. */
  lemma CatalogCount(p: CatalogEntry -> bool)
    ensures Seqs.Count(Catalog, p)
      == Tally(p, Catalog[0]) + Tally(p, Catalog[1]) + Tally(p, Catalog[2]) + Tally(p, Catalog[3]) + Tally(p, Catalog[4])
  {
    var c := Catalog;
    assert c[1..][1..][1..][1..][1..] == [];
    assert Seqs.Count(c[1..][1..][1..][1..], p) == Tally(p, c[4]);
    assert Seqs.Count(c[1..][1..][1..], p) == Tally(p, c[3]) + Tally(p, c[4]);
    assert Seqs.Count(c[1..][1..], p) == Tally(p, c[2]) + Tally(p, c[3]) + Tally(p, c[4]);
    assert Seqs.Count(c[1..], p) == Tally(p, c[1]) + Tally(p, c[2]) + Tally(p, c[3]) + Tally(p, c[4]);
  }

  /** The catalog: 5 products; 2 Furniture, 2 Electronics, 1 Stationery; one
      low-stock and one out-of-stock alert. */
  lemma CatalogCards()
    ensures |Catalog| == 5
    ensures CategoryBreakdown(Catalog) == [2, 2, 1]
    ensures StockAlerts(Catalog) == Alerts(1, 1)
  {
    CatalogBreakdown();
    CatalogAlerts();
  }

  lemma CatalogBreakdown()
    ensures CategoryBreakdown(Catalog) == [2, 2, 1]
  {
    CatalogHas(InCategory("Furniture"), 2);
    CatalogHas(InCategory("Electronics"), 2);
    CatalogHas(InCategory("Stationery"), 1);
  }

  lemma CatalogAlerts()
    ensures StockAlerts(Catalog) == Alerts(1, 1)
  {
    CatalogHas(WithStatus("Low Stock"), 1);
    CatalogHas(WithStatus("Out of Stock"), 1);
  }

  /** A count over the catalog, from the five entries' tallies. */
  lemma CatalogHas(p: CatalogEntry -> bool, n: nat)
    requires Tally(p, Catalog[0]) + Tally(p, Catalog[1]) + Tally(p, Catalog[2]) + Tally(p, Catalog[3]) + Tally(p, Catalog[4]) == n
    ensures Seqs.Count(Catalog, p) == n
  {
    CatalogCount(p);
  }

  /** Each stored status in the catalog agrees with the stock rule. */
  lemma CatalogStatusesMatchStock()
    ensures forall i :: 0 <= i < |Catalog| ==> Catalog[i].status == Products.Classify(Catalog[i].stock).Label()
  {
  }

  /** The badge for a status text: "In Stock" is default, "Low Stock" is
      outline, any other text is destructive. */
  function StatusBadge(status: string): (v: Ui.BadgeVariant)
    ensures v == Ui.Default <==> status == "In Stock"
    ensures v == Ui.Outline <==> status == "Low Stock"
    ensures v == Ui.Destructive <==> status != "In Stock" && status != "Low Stock"
  {
    if status == "In Stock" then Ui.Default
    else if status == "Low Stock" then Ui.Outline
    else Ui.Destructive
  }

  /** The three statuses get three different badges. */
  lemma StatusBadgesDistinct(a: Products.StockStatus, b: Products.StockStatus)
    ensures StatusBadge(a.Label()) == StatusBadge(b.Label()) ==> a == b
  {
  }
}
