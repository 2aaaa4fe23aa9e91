/**
 * The colour swatches: the fixed catalog, which swatches are disabled
 * (not offered, or out of stock), what a click passes on, each swatch's
 * tooltip, and the name shown for the selected colour.
 */
module ColorSelector {
  import opened Options
  import Decimal

  datatype Color = Color(name: string, value: string, hex: string)

  const Catalog: seq<Color> := [
    Color("Blanco", "White", "#FFFFFF"),
    Color("Gris", "Gray", "#6B7280"),
    Color("Negro", "Black", "#1a1a1a"),
    Color("Plateado", "Silvery", "#C0C0C0")
  ]

  /** The catalog's values, in order. */
  lemma CatalogValues()
    ensures |Catalog| == 4
    ensures Catalog[0].value == "White" && Catalog[1].value == "Gray"
    ensures Catalog[2].value == "Black" && Catalog[3].value == "Silvery"
    ensures forall i, j :: 0 <= i < j < |Catalog| ==> Catalog[i].value != Catalog[j].value
  {
  }

  /** The optional props: the colours on offer, and a stock lookup. */
  datatype Props = Props(availableColors: Option<seq<string>>, getColorStock: Option<string -> int>)

  /** Offered: no list was given, or the list names the colour. */
  predicate IsAvailable(props: Props, value: string) {
    props.availableColors.None? || value in props.availableColors.value
  }

  /** The stock the lookup reports, when there is a lookup. */
  function StockOf(props: Props, value: string): Option<int> {
    if props.getColorStock.None? then None else Some(props.getColorStock.value(value))
  }

  /** In stock: no lookup was given, or it reports more than zero. */
  predicate HasStock(props: Props, value: string) {
    StockOf(props, value).None? || StockOf(props, value).value > 0
  }

  predicate IsDisabled(props: Props, value: string) {
    !IsAvailable(props, value) || !HasStock(props, value)
  }

  /** Without either prop every swatch is enabled. */
  lemma NoPropsNothingDisabled(value: string)
    ensures !IsDisabled(Props(None, None), value)
  {
  }

  /** A click: a disabled swatch passes nothing on; an enabled one passes its own value. */
  function Click(props: Props, c: Color): (r: Option<string>)
    ensures r.None? <==> IsDisabled(props, c.value)
    ensures r.Some? ==> r.value == c.value
  {
    if IsDisabled(props, c.value) then None else Some(c.value)
  }

  const NoStockSuffix: string := " - Sin stock"
  const StockPrefix: string := " - Stock: "

  /**
   * The tooltip: "name - Sin stock" for any disabled swatch (even one that is
   * only not offered), "name - Stock: n" when the stock is known, else the name.
   */
  function Title(props: Props, c: Color): (t: string)
    ensures IsDisabled(props, c.value) ==> t == c.name + NoStockSuffix
    ensures !IsDisabled(props, c.value) && StockOf(props, c.value).Some? ==>
      StockOf(props, c.value).value > 0
      && t == c.name + StockPrefix + Decimal.Text(StockOf(props, c.value).value)
    ensures !IsDisabled(props, c.value) && StockOf(props, c.value).None? ==> t == c.name
  {
    if IsDisabled(props, c.value) then c.name + NoStockSuffix
    else match StockOf(props, c.value)
      case Some(n) => c.name + StockPrefix + Decimal.Text(n)
      case None => c.name
  }

  /** The stock count in an enabled swatch's tooltip reads back as the stock. */
  lemma TitleStockReadsBack(props: Props, c: Color)
    requires !IsDisabled(props, c.value) && StockOf(props, c.value).Some?
    ensures var t := Title(props, c); var k := |c.name| + |StockPrefix|;
      k <= |t| && Decimal.ParseInt(t[k..]) == Some(StockOf(props, c.value).value)
  {
    var n := StockOf(props, c.value).value;
    var t := Title(props, c);
    var k := |c.name| + |StockPrefix|;
    assert t[k..] == Decimal.Text(n);
    Decimal.ParseText(n);
  }

  /** `i` is the first position of `colors` holding `value`. */
  predicate FirstWithValue(colors: seq<Color>, i: int, value: string) {
    0 <= i < |colors| && colors[i].value == value && forall j :: 0 <= j < i ==> colors[j].value != value
  }

  /** The catalog entry with this value, if any (`colors.find(...)`). */
  function Find(colors: seq<Color>, value: string): (r: Option<Color>)
    ensures r.None? <==> forall i :: 0 <= i < |colors| ==> colors[i].value != value
    ensures r.Some? ==> exists i :: FirstWithValue(colors, i, value) && colors[i] == r.value
  {
    if |colors| == 0 then None
    else if colors[0].value == value then
      assert FirstWithValue(colors, 0, value);
      Some(colors[0])
    else
      var r := Find(colors[1..], value);
      if r.Some? then
        var i :| FirstWithValue(colors[1..], i, value) && colors[1..][i] == r.value;
        assert FirstWithValue(colors, i + 1, value);
        r
      else r
  }

  /** "Color seleccionado": the catalog name of the selected value, nothing when it is not in the catalog. */
  function SelectedName(selected: string): (r: Option<string>)
    ensures r.None? <==> forall i :: 0 <= i < |Catalog| ==> Catalog[i].value != selected
    ensures forall i :: 0 <= i < |Catalog| && Catalog[i].value == selected ==> r == Some(Catalog[i].name)
  {
    CatalogValues();
    match Find(Catalog, selected)
    case None => None
    case Some(c) => Some(c.name)
  }
}
