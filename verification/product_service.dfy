/** The product service: a product list kept in browser storage under
    `products`, initialised with five seed products on first load. Every call
    loads the list, works on it and, where it changes, saves it back. Here the
    storage is an explicit value: `None` before the first load. */
module ProductService {
  import opened Wrappers
  import opened Products
  import Text
  import Seqs
  import Store

  function Seed(id: string, name: string, category: string, price: int, stock: int, status: StockStatus,
                description: string, sku: string, supplier: string, lastUpdated: string): Product {
    Product(id, name, category, price, stock, status, Some(description), None, Some(sku), Some(supplier), Some(lastUpdated))
  }

  const Seeds: seq<Product> := [
    Seed("PRD001", "Ergonomic Office Chair", "Furniture", 24999, 45, InStock,
      "Adjustable height and lumbar support for optimal comfort during long work hours.",
      "FURN-CHAIR-001", "OfficePro Supplies", "2025-03-28"),
    Seed("PRD002", "Standing Desk - Oak Finish", "Furniture", 39999, 12, LowStock,
      "Motorized standing desk with memory height presets and cable management.",
      "FURN-DESK-002", "ErgoDirect", "2025-03-25"),
    Seed("PRD003", "Wireless Keyboard", "Electronics", 8999, 68, InStock,
      "Bluetooth wireless keyboard with multi-device connectivity and backlit keys.",
      "ELEC-KB-003", "TechAccessories Inc.", "2025-04-01"),
    Seed("PRD004", "27-inch 4K Monitor", "Electronics", 34999, 0, OutOfStock,
      "Ultra-sharp 4K resolution monitor with wide color gamut and eye comfort technology.",
      "ELEC-MON-004", "VisualTech", "2025-03-15"),
    Seed("PRD005", "Leather Notebook", "Stationery", 2499, 124, InStock,
      "Premium leather-bound notebook with acid-free paper and bookmark ribbon.",
      "STAT-NB-005", "PaperWorks Co.", "2025-04-03")
  ]

  /** Every seed's stored status agrees with the stock rule. */
  lemma SeedStatusesMatchStock()
    ensures forall i :: 0 <= i < |Seeds| ==> Seeds[i].status == Classify(Seeds[i].stock)
  {
  }

  /** What storage holds after a call, and what the call resolves with. */
  datatype Call<V> = Call(saved: seq<Product>, value: V)

  /** `loadProducts`: the stored list, or the seeds when nothing is stored
      yet (which are stored at that moment). */
  function Load(saved: Option<seq<Product>>): (ps: seq<Product>)
    ensures saved.None? ==> ps == Seeds
    ensures saved.Some? ==> ps == saved.value
  {
    saved.GetOr(Seeds)
  }

  /** `getProducts`. */
  function GetProducts(saved: Option<seq<Product>>): (r: Call<seq<Product>>)
    ensures r.saved == r.value == Load(saved)
  {
    Call(Load(saved), Load(saved))
  }

  function IdOf(p: Product): string { p.id }

  /** `PRD` followed by `count + 1`, zero-padded to at least three digits. */
  function NewId(count: nat): (id: string)
    ensures |id| >= 6 && id[..3] == "PRD"
    ensures Text.AllDigits(id[3..]) && Text.DigitsValue(id[3..]) == count + 1
    ensures count + 1 < 1000 ==> |id| == 6
    ensures count + 1 >= 100 ==> id[3..] == Text.NatToString(count + 1) && id[3] != '0'
  {
    Text.Pad3Digits(count + 1);
    Text.Pad3Wide(count + 1);
    var id := "PRD" + Text.Pad3(count + 1);
    assert id[3..] == Text.Pad3(count + 1);
    id
  }

  /** The product without its id. */
  function DraftOf(p: Product): ProductDraft {
    ProductDraft(p.name, p.category, p.price, p.stock, p.status, p.description, p.imageUrl, p.sku, p.supplier, p.lastUpdated)
  }

  /** `addProduct`: the payload with the count-based id and today's date
      appended at the end; the generated id and date override the payload's. */
  function AddProduct(saved: Option<seq<Product>>, d: ProductDraft, today: string): (r: Call<Product>)
    ensures r.saved == Load(saved) + [r.value]
    ensures r.value.id == NewId(|Load(saved)|)
    ensures DraftOf(r.value) == d.(lastUpdated := Some(today))
  {
    var p := Product(NewId(|Load(saved)|), d.name, d.category, d.price, d.stock, d.status,
      d.description, d.imageUrl, d.sku, d.supplier, Some(today));
    Call(Load(saved) + [p], p)
  }

  /** `Partial<Product>`. */
  datatype ProductPatch = ProductPatch(
    id: Option<string>, name: Option<string>, category: Option<string>, price: Option<int>,
    stock: Option<int>, status: Option<StockStatus>,
    description: Option<string>, imageUrl: Option<string>, sku: Option<string>,
    supplier: Option<string>, lastUpdated: Option<string>)

  const NoChanges := ProductPatch(None, None, None, None, None, None, None, None, None, None, None)

  /** `{ ...p, ...updates, lastUpdated: today }`. */
  function Restamp(today: string): (Product, ProductPatch) -> Product {
    (p: Product, u: ProductPatch) =>
      Product(u.id.GetOr(p.id), u.name.GetOr(p.name), u.category.GetOr(p.category), u.price.GetOr(p.price),
        u.stock.GetOr(p.stock), u.status.GetOr(p.status), Over(u.description, p.description),
        Over(u.imageUrl, p.imageUrl), Over(u.sku, p.sku), Over(u.supplier, p.supplier), Some(today))
  }

  /** `updateProduct`: merges into the first product with `id` and restamps
      it, or resolves `null` and saves nothing. */
  function UpdateProduct(saved: Option<seq<Product>>, id: string, updates: ProductPatch, today: string): (r: Call<Option<Product>>)
    ensures Store.UpdateOutcome(Load(saved), id, updates, IdOf, Restamp(today), Store.Step(r.saved, r.value))
    ensures r.value.Some? ==> r.value.value.lastUpdated == Some(today)
  {
    var u := Store.Update(Load(saved), id, updates, IdOf, Restamp(today));
    Call(u.items, u.value)
  }

  /** An update that does not name a status keeps the stored one, even when
      it changes the stock. */
  lemma UpdateKeepsStatus(saved: Option<seq<Product>>, id: string, updates: ProductPatch, today: string)
    requires Store.HasId(Load(saved), id, IdOf) && updates.status.None?
    ensures UpdateProduct(saved, id, updates, today).value.Some?
    ensures UpdateProduct(saved, id, updates, today).value.value.status
         == Load(saved)[Store.FindIndex(Load(saved), id, IdOf).value].status
  {
  }

  /** Emptying the first seed's stock leaves it labelled In Stock. */
  lemma UpdateStockDoesNotReclassify(today: string)
    ensures UpdateProduct(None, "PRD001", NoChanges.(stock := Some(0)), today).value.Some?
    ensures var p := UpdateProduct(None, "PRD001", NoChanges.(stock := Some(0)), today).value.value;
            p.stock == 0 && p.status == InStock && p.status != Classify(p.stock)
  {
    assert IdOf(Seeds[0]) == "PRD001";
    assert Store.FindIndex(Seeds, "PRD001", IdOf) == Some(0);
  }

  /** The filter test `product.id !== id`. */
  function NotId(id: string): Product -> bool {
    (p: Product) => p.id != id
  }

  /** `deleteProduct`: removes every product with `id`; resolves `true` iff
      one was removed, and saves only then. */
  function DeleteProduct(saved: Option<seq<Product>>, id: string): (r: Call<bool>)
    ensures r.value <==> Store.HasId(Load(saved), id, IdOf)
    ensures !r.value ==> r.saved == Load(saved)
    ensures r.saved == Seqs.Filter(Load(saved), NotId(id))
  {
    var ps := Load(saved);
    var kept := Seqs.Filter(ps, NotId(id));
    Seqs.FilterKeepsLength(ps, NotId(id));
    if |kept| == |ps| then
      Seqs.FilterAll(ps, NotId(id));
      Call(ps, false)
    else
      Call(kept, true)
  }

  /** After a delete no product has the id, and every other product is still
      there. */
  lemma DeleteProductContents(saved: Option<seq<Product>>, id: string, p: Product)
    ensures !Store.HasId(DeleteProduct(saved, id).saved, id, IdOf)
    ensures p in DeleteProduct(saved, id).saved <==> p in Load(saved) && p.id != id
  {
    Seqs.FilterMembership(Load(saved), NotId(id), p);
  }

  /** `getProductById`: the first product with `id`, if any. */
  function GetProductById(saved: Option<seq<Product>>, id: string): (r: Call<Option<Product>>)
    ensures r.saved == Load(saved)
    ensures r.value.None? <==> !Store.HasId(Load(saved), id, IdOf)
    ensures r.value.Some? ==> exists i :: Store.FirstWithId(Load(saved), id, IdOf, i) && r.value.value == Load(saved)[i]
  {
    var ps := Load(saved);
    match Store.FindIndex(ps, id, IdOf)
    case None => Call(ps, None)
    case Some(i) => Call(ps, Some(ps[i]))
  }

  /** `products.map(p => p.category)`. */
  function CategoryColumn(ps: seq<Product>): (r: seq<string>)
    ensures |r| == |ps| && forall i :: 0 <= i < |ps| ==> r[i] == ps[i].category
  {
    seq(|ps|, i requires 0 <= i < |ps| => ps[i].category)
  }

  /** The distinct categories of `ps`, in order of first appearance. */
  function Categories(ps: seq<Product>): (cats: seq<string>)
    ensures Seqs.NoDuplicates(cats)
    ensures forall i :: 0 <= i < |ps| ==> ps[i].category in cats
    ensures forall i :: 0 <= i < |cats| ==> cats[i] in CategoryColumn(ps)
    ensures forall i, j :: 0 <= i < j < |cats| ==>
      Seqs.FirstIndex(CategoryColumn(ps), cats[i]) < Seqs.FirstIndex(CategoryColumn(ps), cats[j])
  {
    var col := CategoryColumn(ps);
    assert forall i :: 0 <= i < |ps| ==> ps[i].category == col[i];
    Seqs.Distinct(col)
  }

  /** `getCategories`: each category once, in order of first appearance. */
  function GetCategories(saved: Option<seq<Product>>): (r: Call<seq<string>>)
    ensures r.saved == Load(saved)
    ensures r.value == Categories(Load(saved))
  {
    Call(Load(saved), Categories(Load(saved)))
  }

  /** A category is listed exactly when some product has it. */
  lemma CategoriesMembership(ps: seq<Product>, c: string)
    ensures c in Categories(ps) <==> exists i :: 0 <= i < |ps| && ps[i].category == c
  {
    if c in Categories(ps) {
      var k := Seqs.FirstIndex(CategoryColumn(ps), c);
      assert ps[k].category == c;
    }
  }

  /** The first add on fresh storage gets `PRD006`. */
  lemma FirstAddIsPrd006(d: ProductDraft, today: string)
    ensures AddProduct(None, d, today).value.id == "PRD006"
  {
    assert Text.NatToString(6) == ['6'];
    assert Text.Repeat('0', 2) == "00";
  }

  /** The filter test `product.id === id`. */
  function IsId(id: string): Product -> bool {
    (p: Product) => p.id == id
  }

  /** The fifth generated id is `PRD005`. */
  lemma NewIdAfterFour()
    ensures NewId(4) == "PRD005"
  {
    assert Text.NatToString(5) == ['5'];
    assert Text.Pad3(5) == Text.Repeat('0', 2) + ['5'];
    assert Text.Repeat('0', 2) == ['0', '0'];
    assert NewId(4) == ['P', 'R', 'D', '0', '0', '5'];
  }

  /** When the last product holds the id the count would give next after one
      removal, deleting any other single product and then adding creates a
      second product with that id: the id comes from the count, not from the
      ids in use. */
  lemma AddAfterDeleteDuplicates(ps: seq<Product>, id: string, d: ProductDraft, today: string)
    requires |ps| >= 2
    requires Seqs.Count(ps, IsId(id)) == 1
    requires ps[|ps| - 1].id == NewId(|ps| - 1) != id
    ensures var after := AddProduct(Some(DeleteProduct(Some(ps), id).saved), d, today).saved;
            |after| == |ps| && after[|after| - 2].id == after[|after| - 1].id
  {
    var kept := DeleteProduct(Some(ps), id).saved;
    DeleteOneShrinks(ps, id);
    Seqs.FilterKeepsLast(ps, NotId(id));
    var call := AddProduct(Some(kept), d, today);
    assert call.saved == kept + [call.value];
    assert call.saved[|ps| - 2] == kept[|kept| - 1];
  }

  /** Deleting an id held by exactly one product removes one product. */
  lemma DeleteOneShrinks(ps: seq<Product>, id: string)
    requires Seqs.Count(ps, IsId(id)) == 1
    ensures |DeleteProduct(Some(ps), id).saved| == |ps| - 1
  {
    Seqs.CountComplement(ps, IsId(id), NotId(id));
  }

  /** Before anything is stored, every call works on the seeds. */
  lemma FreshStorageIsSeeds(id: string)
    ensures DeleteProduct(None, id) == DeleteProduct(Some(Seeds), id)
  {
  }

  /** Deleting `PRD002` from the seeds and then adding yields a second `PRD005`. */
  lemma AddAfterDeleteDuplicatesId(d: ProductDraft, today: string)
    ensures var after := AddProduct(Some(DeleteProduct(None, "PRD002").saved), d, today).saved;
            |after| == 5 && after[3].id == "PRD005" && after[4].id == "PRD005"
  {
    SeedsHoldOnce();
    NewIdAfterFour();
    FreshStorageIsSeeds("PRD002");
    AddAfterDeleteDuplicates(Seeds, "PRD002", d, today);
  }

  /** Exactly one seed holds `PRD002`, and the last seed holds `PRD005`. */
  lemma SeedsHoldOnce()
    ensures |Seeds| == 5 && Seqs.Count(Seeds, IsId("PRD002")) == 1 && Seeds[4].id == NewId(4)
  {
    var f := IsId("PRD002");
    var ids := ["PRD001", "PRD002", "PRD003", "PRD004", "PRD005"];
    assert forall i :: 0 <= i < 5 ==> Seeds[i].id == ids[i];
    assert !f(Seeds[0]) && f(Seeds[1]) && !f(Seeds[2]) && !f(Seeds[3]) && !f(Seeds[4]);
    Seqs.FilterNone(Seeds[2..], f);
    assert Seeds[1..][1..] == Seeds[2..];
    NewIdAfterFour();
  }
}
