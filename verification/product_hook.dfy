/** The products hook: the status and category tallies it derives from the
    cached product list, and which cached lists each mutation refreshes. */
module ProductHook {
  import opened Wrappers
  import opened Products
  import Seqs
  import Store
  import ProductService

  function HasStatus(st: StockStatus): Product -> bool {
    (p: Product) => p.status == st
  }

  function InCategory(c: string): Product -> bool {
    (p: Product) => p.category == c
  }

  datatype StatusCounts = StatusCounts(inStock: nat, lowStock: nat, outOfStock: nat)

  /** `stockStatusCounts`. Every product has exactly one of the three
      statuses, so the counts add up to the number of products. */
  function StockStatusCounts(ps: seq<Product>): (r: StatusCounts)
    ensures r.inStock == Seqs.Count(ps, HasStatus(InStock))
    ensures r.lowStock == Seqs.Count(ps, HasStatus(LowStock))
    ensures r.outOfStock == Seqs.Count(ps, HasStatus(OutOfStock))
    ensures r.inStock + r.lowStock + r.outOfStock == |ps|
  {
    Seqs.CountPartition3(ps, HasStatus(InStock), HasStatus(LowStock), HasStatus(OutOfStock));
    StatusCounts(Seqs.Count(ps, HasStatus(InStock)), Seqs.Count(ps, HasStatus(LowStock)),
      Seqs.Count(ps, HasStatus(OutOfStock)))
  }

  /** `categoryCounts`: a `reduce` over the cached categories that sets one
      key per category to the number of products in it. */
  function CategoryCounts(ps: seq<Product>, categories: seq<string>): (m: map<string, nat>)
    ensures m.Keys == set c | c in categories
    ensures forall c :: c in m ==> m[c] == Seqs.Count(ps, InCategory(c))
  {
    if |categories| == 0 then map[]
    else
      var c := categories[|categories| - 1];
      var init := categories[..|categories| - 1];
      assert categories == init + [c];
      CategoryCounts(ps, init)[c := Seqs.Count(ps, InCategory(c))]
  }

  /** A category with no products still has a key, with count 0. */
  lemma EmptyCategoryCountsZero(ps: seq<Product>, categories: seq<string>, c: string)
    requires c in categories
    requires forall i :: 0 <= i < |ps| ==> ps[i].category != c
    ensures c in CategoryCounts(ps, categories) && CategoryCounts(ps, categories)[c] == 0
  {
    Seqs.FilterNone(ps, InCategory(c));
  }

  // ---------------------------------------------------------------------
  // Category counts add up
  // ---------------------------------------------------------------------

  /** How many entries of `cats` equal `x`. */
  function Occurrences(cats: seq<string>, x: string): nat {
    if |cats| == 0 then 0 else (if cats[0] == x then 1 else 0) + Occurrences(cats[1..], x)
  }

  /** The per-category counts of `cats`, added up. */
  function SumOfCounts(ps: seq<Product>, cats: seq<string>): nat {
    if |cats| == 0 then 0 else Seqs.Count(ps, InCategory(cats[0])) + SumOfCounts(ps, cats[1..])
  }

  /** The map's values at `cats`, added up. */
  function SumAt(m: map<string, nat>, cats: seq<string>): nat
    requires forall i :: 0 <= i < |cats| ==> cats[i] in m
  {
    if |cats| == 0 then 0 else m[cats[0]] + SumAt(m, cats[1..])
  }

  lemma {:induction false} OccurrencesOfDistinct(cats: seq<string>, x: string)
    requires Seqs.NoDuplicates(cats) && x in cats
    ensures Occurrences(cats, x) == 1
  {
    if cats[0] != x {
      OccurrencesOfDistinct(cats[1..], x);
    } else {
      assert x !in cats[1..];
      OccurrencesAbsent(cats[1..], x);
    }
  }

  lemma {:induction false} OccurrencesAbsent(cats: seq<string>, x: string)
    requires x !in cats
    ensures Occurrences(cats, x) == 0
  {
    if |cats| > 0 {
      OccurrencesAbsent(cats[1..], x);
    }
  }

  /** Taking the first product off lowers the sum by the number of times its
      category is listed. */
  lemma {:induction false} SumOfCountsStep(ps: seq<Product>, cats: seq<string>)
    requires |ps| > 0
    ensures SumOfCounts(ps, cats) == Occurrences(cats, ps[0].category) + SumOfCounts(ps[1..], cats)
  {
    if |cats| > 0 {
      SumOfCountsStep(ps, cats[1..]);
    }
  }

  /** Over a duplicate-free list that names every product's category, the
      per-category counts add up to the number of products. */
  lemma {:induction false} SumOfCountsCoversAll(ps: seq<Product>, cats: seq<string>)
    requires Seqs.NoDuplicates(cats)
    requires forall i :: 0 <= i < |ps| ==> ps[i].category in cats
    ensures SumOfCounts(ps, cats) == |ps|
  {
    if |ps| == 0 {
      SumOfCountsEmpty(cats);
    } else {
      SumOfCountsStep(ps, cats);
      OccurrencesOfDistinct(cats, ps[0].category);
      SumOfCountsCoversAll(ps[1..], cats);
    }
  }

  lemma {:induction false} SumOfCountsEmpty(cats: seq<string>)
    ensures SumOfCounts([], cats) == 0
  {
    if |cats| > 0 {
      SumOfCountsEmpty(cats[1..]);
    }
  }

  lemma {:induction false} SumAtIsSumOfCounts(ps: seq<Product>, cats: seq<string>, m: map<string, nat>)
    requires forall i :: 0 <= i < |cats| ==> cats[i] in m && m[cats[i]] == Seqs.Count(ps, InCategory(cats[i]))
    ensures SumAt(m, cats) == SumOfCounts(ps, cats)
  {
    if |cats| > 0 {
      SumAtIsSumOfCounts(ps, cats[1..], m);
    }
  }

  /** When the categories are the distinct categories of the same products,
      the category counts add up to the number of products. */
  lemma CategoryCountsSumToLength(ps: seq<Product>)
    ensures var cats := ProductService.Categories(ps);
            var m := CategoryCounts(ps, cats);
            (forall i :: 0 <= i < |cats| ==> cats[i] in m) && SumAt(m, cats) == |ps|
  {
    var cats := ProductService.Categories(ps);
    var m := CategoryCounts(ps, cats);
    SumOfCountsCoversAll(ps, cats);
    SumAtIsSumOfCounts(ps, cats, m);
  }

  // ---------------------------------------------------------------------
  // Cache refresh
  // ---------------------------------------------------------------------

  /** What the hook has cached: the product list and the category list. */
  datatype View = View(products: seq<Product>, categories: seq<string>)

  /** The hook's world: what storage holds and what is cached. */
  datatype HookState = HookState(saved: Option<seq<Product>>, view: View)

  /** Both caches refetched from what storage holds. */
  function Fresh(saved: seq<Product>): (v: View)
    ensures v.products == saved
    ensures v.categories == ProductService.Categories(saved)
  {
    View(saved, ProductService.Categories(saved))
  }

  /** The add mutation: on success both caches are invalidated and refetched. */
  function Add(st: HookState, d: ProductDraft, today: string): (r: HookState)
    ensures r.saved == Some(ProductService.AddProduct(st.saved, d, today).saved)
    ensures r.view == Fresh(r.saved.value)
  {
    var call := ProductService.AddProduct(st.saved, d, today);
    HookState(Some(call.saved), Fresh(call.saved))
  }

  /** The update mutation: on success both caches are refetched. */
  function Update(st: HookState, id: string, updates: ProductService.ProductPatch, today: string): (r: HookState)
    ensures r.saved == Some(ProductService.UpdateProduct(st.saved, id, updates, today).saved)
    ensures r.view == Fresh(r.saved.value)
  {
    var call := ProductService.UpdateProduct(st.saved, id, updates, today);
    HookState(Some(call.saved), Fresh(call.saved))
  }

  /** The delete mutation's outcome: the new state and whether the "Product
      Deleted" notification was shown. */
  datatype DeleteEffect = DeleteEffect(state: HookState, notified: bool)

  /** The delete mutation: only the product cache is refetched, and the
      notification fires only if the service reported a removal. */
  function Delete(st: HookState, id: string): (r: DeleteEffect)
    ensures r.state.view.products == ProductService.DeleteProduct(st.saved, id).saved
    ensures r.state.view.categories == st.view.categories
    ensures r.notified <==> Store.HasId(ProductService.Load(st.saved), id, ProductService.IdOf)
  {
    var call := ProductService.DeleteProduct(st.saved, id);
    DeleteEffect(HookState(Some(call.saved), View(call.saved, st.view.categories)), call.value)
  }

  /** Deleting the last product of a category leaves the category listed,
      with a count of 0, until something else refetches the categories. */
  lemma CategorySurvivesDelete(st: HookState, id: string, c: string)
    requires c in st.view.categories
    requires forall i :: 0 <= i < |ProductService.Load(st.saved)| ==>
      ProductService.Load(st.saved)[i].category == c ==> ProductService.Load(st.saved)[i].id == id
    ensures var v := Delete(st, id).state.view;
            c in v.categories && c in CategoryCounts(v.products, v.categories)
            && CategoryCounts(v.products, v.categories)[c] == 0
  {
    var v := Delete(st, id).state.view;
    forall i | 0 <= i < |v.products|
      ensures v.products[i].category != c
    {
      ProductService.DeleteProductContents(st.saved, id, v.products[i]);
    }
    EmptyCategoryCountsZero(v.products, v.categories, c);
  }
}
