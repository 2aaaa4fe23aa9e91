/**
 * The product hook: which query it runs, the active-variant filter applied
 * to the fetched product, and the per-colour stock lookups.
 */
module ProductCatalog {
  import opened Options
  import opened Domain
  import ColorSelector

  /** The hook's options. */
  datatype HookOptions = HookOptions(productId: Option<string>, sku: Option<string>)

  datatype Filter = ById(id: string) | BySku(sku: string) | NoFilter

  /** The id filter wins whenever an id is given; the SKU is used only without one. */
  function QueryFilter(o: HookOptions): (f: Filter)
    ensures Truthy(o.productId) ==> f == ById(o.productId.value)
    ensures !Truthy(o.productId) && Truthy(o.sku) ==> f == BySku(o.sku.value)
    ensures !Truthy(o.productId) && !Truthy(o.sku) ==> f == NoFilter
  {
    if Truthy(o.productId) then ById(o.productId.value)
    else if Truthy(o.sku) then BySku(o.sku.value)
    else NoFilter
  }

  /** The variants that are active, in their original order. */
  function ActiveOnly(vs: seq<ProductVariant>): (r: seq<ProductVariant>)
    ensures |r| <= |vs|
    ensures forall v :: v in r <==> v in vs && v.activo
    decreases |vs|
  {
    if |vs| == 0 then []
    else if vs[0].activo then [vs[0]] + ActiveOnly(vs[1..])
    else ActiveOnly(vs[1..])
  }

  /** Filtering keeps the relative order: it distributes over concatenation. */
  lemma {:induction false} ActiveOnlyAppend(a: seq<ProductVariant>, b: seq<ProductVariant>)
    ensures ActiveOnly(a + b) == ActiveOnly(a) + ActiveOnly(b)
    decreases |a|
  {
    if |a| > 0 {
      assert (a + b)[1..] == a[1..] + b;
      ActiveOnlyAppend(a[1..], b);
    } else {
      assert a + b == b;
    }
  }

  /** Filtering twice is filtering once. */
  lemma {:induction false} ActiveOnlyIdempotent(vs: seq<ProductVariant>)
    ensures ActiveOnly(ActiveOnly(vs)) == ActiveOnly(vs)
    decreases |vs|
  {
    if |vs| > 0 {
      ActiveOnlyIdempotent(vs[1..]);
    }
  }

  /** The query's answer: the product row, or the error the query reported. */
  datatype FetchError = FetchError(isErrorInstance: bool, message: string)
  datatype FetchResult = Found(data: Option<Product>) | FetchFailed(err: FetchError)

  datatype HookState = HookState(product: Option<Product>, loading: bool, error: Option<string>)

  const LoadError: string := "Error al cargar el producto"

  /** After the fetch: the product with only its active variants, or no product and an error message. */
  function AfterFetch(res: FetchResult): (h: HookState)
    ensures !h.loading
    ensures res.FetchFailed? ==> h.product.None? && h.error.Some?
    ensures res.FetchFailed? && res.err.isErrorInstance ==> h.error == Some(res.err.message)
    ensures res.FetchFailed? && !res.err.isErrorInstance ==> h.error == Some(LoadError)
    ensures res.Found? ==> h.error.None? && (h.product.Some? <==> res.data.Some?)
    ensures res.Found? && res.data.Some? ==>
      var p := res.data.value;
      h.product.value == p.(productVariants := h.product.value.productVariants)
      && (p.productVariants.None? ==> h.product.value.productVariants.None?)
      && (p.productVariants.Some? ==> h.product.value.productVariants == Some(ActiveOnly(p.productVariants.value)))
  {
    match res
    case FetchFailed(e) => HookState(None, false, Some(if e.isErrorInstance then e.message else LoadError))
    case Found(None) => HookState(None, false, None)
    case Found(Some(p)) =>
      var kept := if p.productVariants.Some? then Some(ActiveOnly(p.productVariants.value)) else None;
      HookState(Some(p.(productVariants := kept)), false, None)
  }

  /** `i` is the first variant with colour `c` that is active. */
  predicate FirstActiveOfColor(vs: seq<ProductVariant>, i: int, c: string) {
    0 <= i < |vs| && vs[i].color == c && vs[i].activo
    && forall j :: 0 <= j < i ==> !(vs[j].color == c && vs[j].activo)
  }

  /** `vs.find(v => v.color === c && v.activo)`. */
  function FindActive(vs: seq<ProductVariant>, c: string): (r: Option<ProductVariant>)
    ensures r.None? <==> forall i :: 0 <= i < |vs| ==> !(vs[i].color == c && vs[i].activo)
    ensures r.Some? ==> exists i :: FirstActiveOfColor(vs, i, c) && vs[i] == r.value
  {
    if |vs| == 0 then None
    else if vs[0].color == c && vs[0].activo then
      assert FirstActiveOfColor(vs, 0, c);
      Some(vs[0])
    else
      var r := FindActive(vs[1..], c);
      if r.Some? then
        var i :| FirstActiveOfColor(vs[1..], i, c) && vs[1..][i] == r.value;
        assert FirstActiveOfColor(vs, i + 1, c);
        r
      else r
  }

  /**
   * `getStockByColor`: 0 without a product or variants; otherwise the stock
   * of the first active variant of that colour, 0 when there is none.
   */
  function StockByColor(product: Option<Product>, c: string): (n: int)
    ensures product.None? || product.value.productVariants.None? ==> n == 0
    ensures product.Some? && product.value.productVariants.Some? ==>
      var vs := product.value.productVariants.value;
      ((forall i :: 0 <= i < |vs| ==> !(vs[i].color == c && vs[i].activo)) ==> n == 0)
      && (forall i :: FirstActiveOfColor(vs, i, c) ==> n == vs[i].stock)
  {
    if product.None? || product.value.productVariants.None? then 0
    else
      match FindActive(product.value.productVariants.value, c)
      case None => 0
      case Some(v) =>
        var vs := product.value.productVariants.value;
        assert forall i, j :: FirstActiveOfColor(vs, i, c) && FirstActiveOfColor(vs, j, c) ==> i == j;
        v.stock
  }

  /** `hasStock`: the colour's stock is positive. */
  predicate HasStock(product: Option<Product>, c: string) {
    StockByColor(product, c) > 0
  }

  /** The lookup answers the same on the fetched row and on the filtered product the hook keeps. */
  lemma {:induction false} FindActiveIgnoresInactive(vs: seq<ProductVariant>, c: string)
    ensures FindActive(ActiveOnly(vs), c) == FindActive(vs, c)
    decreases |vs|
  {
    if |vs| > 0 {
      FindActiveIgnoresInactive(vs[1..], c);
    }
  }

  lemma StockUnaffectedByFilter(p: Product, c: string)
    requires p.productVariants.Some?
    ensures StockByColor(AfterFetch(Found(Some(p))).product, c) == StockByColor(Some(p), c)
  {
    FindActiveIgnoresInactive(p.productVariants.value, c);
  }

  /** Handing `getStockByColor` to the colour selector disables a swatch exactly when `hasStock` is false (for an offered colour). */
  lemma SelectorAgreesWithHasStock(product: Option<Product>, c: string)
    ensures var props := ColorSelector.Props(None, Some((x: string) => StockByColor(product, x)));
      ColorSelector.IsDisabled(props, c) <==> !HasStock(product, c)
  {
  }
}
