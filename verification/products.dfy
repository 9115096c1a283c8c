/** The product record, the stock-status rule and the product form
    (`ProductModal`). Prices are in cents and stock is a whole number. */
module Products {
  import opened Wrappers

  /** The three values of the `status` union. */
  datatype StockStatus = InStock | LowStock | OutOfStock {
    function Label(): string {
      match this
      case InStock => "In Stock"
      case LowStock => "Low Stock"
      case OutOfStock => "Out of Stock"
    }

    /** How healthy the status is: Out of Stock < Low Stock < In Stock. */
    function Rank(): nat {
      match this
      case OutOfStock => 0
      case LowStock => 1
      case InStock => 2
    }
  }

  /** The three labels are distinct, so a label names one status. */
  lemma LabelInjective(a: StockStatus, b: StockStatus)
    ensures a.Label() == b.Label() ==> a == b
  {
  }

  datatype Product = Product(
    id: string, name: string, category: string, price: int, stock: int, status: StockStatus,
    description: Option<string>, imageUrl: Option<string>, sku: Option<string>,
    supplier: Option<string>, lastUpdated: Option<string>)

  /** `Omit<Product, 'id'>`: the add payload and the form's state. */
  datatype ProductDraft = ProductDraft(
    name: string, category: string, price: int, stock: int, status: StockStatus,
    description: Option<string>, imageUrl: Option<string>, sku: Option<string>,
    supplier: Option<string>, lastUpdated: Option<string>)

  /** The highest stock that still counts as low. */
  const LowStockLimit: int := 15

  /** The stock rule of the form's submit handler. */
  function Classify(stock: int): (r: StockStatus)
    ensures r == OutOfStock <==> stock <= 0
    ensures r == LowStock <==> 0 < stock <= LowStockLimit
    ensures r == InStock <==> stock > LowStockLimit
  {
    if stock <= 0 then OutOfStock
    else if stock <= LowStockLimit then LowStock
    else InStock
  }

  /** More stock never gives a worse status. */
  lemma ClassifyMonotone(a: int, b: int)
    requires a <= b
    ensures Classify(a).Rank() <= Classify(b).Rank()
  {
  }

  /** The boundaries: 0 is out, 1 and 15 are low, 16 is in. */
  lemma ClassifyBoundaries()
    ensures Classify(0) == OutOfStock && Classify(1) == LowStock
    ensures Classify(15) == LowStock && Classify(16) == InStock
  {
  }

  // ---------------------------------------------------------------------
  // The product form
  // ---------------------------------------------------------------------

  /** The empty form a new product starts from. */
  const EmptyForm := ProductDraft("", "", 0, 0, InStock, Some(""), None, Some(""), Some(""), None)

  /** The text inputs, by their `name` attribute. */
  datatype InputField = NameInput | SkuInput | PriceInput | StockInput | SupplierInput | DescriptionInput

  /** `parseFloat(value) || 0`: `parsed` is what `parseFloat` read from the
      input, `None` for NaN; NaN and 0 both become 0. */
  function NumberOrZero(parsed: Option<int>): (n: int)
    ensures parsed.None? ==> n == 0
    ensures parsed.Some? ==> n == parsed.value
  {
    parsed.GetOr(0)
  }

  /** `handleChange`: price and stock take the parsed number, every other
      input takes the raw text; no other field changes. */
  function HandleChange(form: ProductDraft, field: InputField, raw: string, parsed: Option<int>): (r: ProductDraft)
    ensures field == PriceInput ==> r.price == NumberOrZero(parsed) && r.(price := form.price) == form
    ensures field == StockInput ==> r.stock == NumberOrZero(parsed) && r.(stock := form.stock) == form
    ensures field == NameInput ==> r.name == raw && r.(name := form.name) == form
    ensures field == SkuInput ==> r.sku == Some(raw) && r.(sku := form.sku) == form
    ensures field == SupplierInput ==> r.supplier == Some(raw) && r.(supplier := form.supplier) == form
    ensures field == DescriptionInput ==> r.description == Some(raw) && r.(description := form.description) == form
  {
    match field
    case NameInput => form.(name := raw)
    case SkuInput => form.(sku := Some(raw))
    case PriceInput => form.(price := NumberOrZero(parsed))
    case StockInput => form.(stock := NumberOrZero(parsed))
    case SupplierInput => form.(supplier := Some(raw))
    case DescriptionInput => form.(description := Some(raw))
  }

  /** `handleSelectChange("category", value)`. */
  function HandleCategoryChange(form: ProductDraft, value: string): (r: ProductDraft)
    ensures r.category == value && r.(category := form.category) == form
  {
    form.(category := value)
  }

  /** `handleSubmit`: the saved payload is the form with the status the stock
      rule gives. */
  function Submit(form: ProductDraft): (r: ProductDraft)
    ensures r.status == Classify(form.stock)
    ensures r.(status := form.status) == form
  {
    form.(status := Classify(form.stock))
  }

  /** Whatever status the form held is ignored. */
  lemma SubmitIgnoresStatus(form: ProductDraft, st: StockStatus)
    ensures Submit(form.(status := st)) == Submit(form)
  {
  }

  /** Unparseable stock input becomes 0 and so saves as Out of Stock. */
  lemma UnparseableStockIsOut(form: ProductDraft, raw: string)
    ensures Submit(HandleChange(form, StockInput, raw, None)).status == OutOfStock
  {
  }
}
