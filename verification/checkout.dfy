/**
 * The checkout form of the purchase modal: its fields, the cascading address
 * selectors, the validation schema, and the submit handler up to the
 * purchase payload it hands to the purchase hook.
 */
module Checkout {
  import opened Options
  import opened Strings
  import Decimal
  import Pricing
  import Geography
  import Purchase

  datatype FormData = FormData(
    nombre: string,
    apellido: string,
    celular: string,
    direccion: string,
    distrito: string,
    departamento: string,
    provincia: string,
    referencia: Option<string>,
    quantity: int)

  /**
   * The modal's state: the form values, the department and province the
   * selectors were last set to, and the colour chosen on the colour selector.
   */
  datatype State = State(form: FormData, selectedRegion: string, selectedProvince: string, currentColor: string)

  /** The colour the modal uses when no `selectedColor` prop is given. */
  const DefaultColor: string := "Silvery"

  /** The modal as it opens: empty fields, the given or default quantity, the given or default colour. */
  function Initial(initialQuantity: Option<int>, selectedColor: Option<string>): (s: State)
    ensures s.form.quantity == initialQuantity.GetOr(1)
    ensures s.currentColor == selectedColor.GetOr(DefaultColor)
    ensures s.selectedRegion == "" && s.selectedProvince == ""
    ensures s.form.departamento == "" && s.form.provincia == "" && s.form.distrito == ""
    ensures s.form.nombre == "" && s.form.apellido == "" && s.form.celular == "" && s.form.direccion == ""
  {
    State(FormData("", "", "", "", "", "", "", Some(""), initialQuantity.GetOr(1)), "", "", selectedColor.GetOr(DefaultColor))
  }

  /** Choosing a department: it is recorded, and the province and district are cleared. */
  function DepartmentChanged(s: State, value: string): (r: State)
    ensures r.selectedRegion == value && r.form.departamento == value
    ensures r.selectedProvince == "" && r.form.provincia == "" && r.form.distrito == ""
    ensures r.form.(departamento := s.form.departamento, provincia := s.form.provincia, distrito := s.form.distrito) == s.form
    ensures r.currentColor == s.currentColor
  {
    s.(selectedRegion := value, selectedProvince := "",
       form := s.form.(departamento := value, provincia := "", distrito := ""))
  }

  /** Choosing a province: it is recorded and only the district is cleared; the department stays. */
  function ProvinceChanged(s: State, value: string): (r: State)
    ensures r.selectedProvince == value && r.form.provincia == value && r.form.distrito == ""
    ensures r.selectedRegion == s.selectedRegion && r.form.departamento == s.form.departamento
    ensures r.form.(provincia := s.form.provincia, distrito := s.form.distrito) == s.form
    ensures r.currentColor == s.currentColor
  {
    s.(selectedProvince := value, form := s.form.(provincia := value, distrito := ""))
  }

  /** Choosing a district sets only the district field. */
  function DistrictChanged(s: State, value: string): (r: State)
    ensures r.form.distrito == value
    ensures r.form.(distrito := s.form.distrito) == s.form
    ensures r.(form := s.form) == s
  {
    s.(form := s.form.(distrito := value))
  }

  /** After a department change the province list is that department's and no district is offered. */
  lemma DepartmentChangeRefreshesOptions(tree: Option<Geography.Tree>, s: State, value: string)
    ensures var r := DepartmentChanged(s, value);
      Geography.ProvinceOptions(tree, r.selectedRegion) == Geography.ProvinceOptions(tree, value)
      && Geography.DistrictOptions(tree, r.selectedRegion, r.selectedProvince) == []
  {
  }

  /** Re-choosing the department after a province and district were chosen clears both. */
  lemma ReselectingDepartmentClears(s: State, first: string, province: string, district: string, second: string)
    ensures var r := DepartmentChanged(DistrictChanged(ProvinceChanged(DepartmentChanged(s, first), province), district), second);
      r.form.departamento == second && r.form.provincia == "" && r.form.distrito == "" && r.selectedProvince == ""
  {
  }

  /** The stepper and the typed field act on the quantity only. */
  function QuantityStepped(s: State, increment: bool): (r: State)
    ensures r.form.quantity == Pricing.Step(s.form.quantity, increment)
    ensures r.form.(quantity := s.form.quantity) == s.form && r.(form := s.form) == s
  {
    s.(form := s.form.(quantity := Pricing.Step(s.form.quantity, increment)))
  }

  function QuantityTyped(s: State, text: string): (r: State)
    ensures Pricing.MinQuantity <= r.form.quantity <= Pricing.MaxQuantity
    ensures r.form.(quantity := s.form.quantity) == s.form && r.(form := s.form) == s
  {
    s.(form := s.form.(quantity := Pricing.TypedQuantity(text)))
  }

  /** A new `initialQuantity` prop resets the quantity field to it (or to one); nothing else changes. */
  function InitialQuantityChanged(s: State, initialQuantity: Option<int>): (r: State)
    ensures r.form.quantity == initialQuantity.GetOr(1)
    ensures r.form.(quantity := s.form.quantity) == s.form && r.(form := s.form) == s
  {
    s.(form := s.form.(quantity := initialQuantity.GetOr(1)))
  }

  /** The colour selector inside the modal, or a new `selectedColor` prop, replaces the current colour. */
  function ColorChosen(s: State, color: string): (r: State)
    ensures r.currentColor == color && r.(currentColor := s.currentColor) == s
  {
    s.(currentColor := color)
  }

  /** The free-text inputs, each bound to its form field with `field.onChange`. */
  datatype TextInput = NombreText | ApellidoText | CelularText | DireccionText | ReferenciaText

  /** Typing into a text input sets that field; the address, quantity and selections are kept. */
  function TextEntered(s: State, input: TextInput, value: string): (r: State)
    ensures input == NombreText ==> r.form.nombre == value
    ensures input == ApellidoText ==> r.form.apellido == value
    ensures input == CelularText ==> r.form.celular == value
    ensures input == DireccionText ==> r.form.direccion == value
    ensures input == ReferenciaText ==> r.form.referencia == Some(value)
    ensures r.form.distrito == s.form.distrito && r.form.provincia == s.form.provincia
    ensures r.form.departamento == s.form.departamento && r.form.quantity == s.form.quantity
    ensures r.(form := s.form) == s
  {
    match input
    case NombreText => s.(form := s.form.(nombre := value))
    case ApellidoText => s.(form := s.form.(apellido := value))
    case CelularText => s.(form := s.form.(celular := value))
    case DireccionText => s.(form := s.form.(direccion := value))
    case ReferenciaText => s.(form := s.form.(referencia := Some(value)))
  }

  /**
   * What a shopper can do to the open modal. The selectors only offer the
   * values they list, and the province and district selectors are not shown
   * at all while their lists are empty.
   */
  datatype Input =
    | DepartmentPicked(department: string)
    | ProvincePicked(province: string)
    | DistrictPicked(district: string)
    | QuantityButton(increment: bool)
    | QuantityText(text: string)
    | InitialQuantityProp(initialQuantity: Option<int>)
    | ColorPicked(color: string)
    | SelectedColorProp(selectedColor: Option<string>)
    | Typed(input: TextInput, value: string)

  /** The district selector is rendered only when the chosen province has districts. */
  predicate DistrictFieldShown(tree: Option<Geography.Tree>, s: State) {
    |Geography.DistrictOptions(tree, s.selectedRegion, s.selectedProvince)| > 0
  }

  /** The Distrito field is empty or one of the districts currently offered. */
  predicate DistrictOffered(tree: Option<Geography.Tree>, s: State) {
    s.form.distrito == "" || s.form.distrito in Geography.DistrictOptions(tree, s.selectedRegion, s.selectedProvince)
  }

  /**
   * One input applied to the modal. A value a selector does not list cannot
   * be chosen, so picking it changes nothing.
   */
  function Apply(tree: Option<Geography.Tree>, s: State, e: Input): (r: State)
    ensures e.DepartmentPicked? && e.department !in Geography.DepartmentOptions(tree) ==> r == s
    ensures e.ProvincePicked? && e.province !in Geography.ProvinceOptions(tree, s.selectedRegion) ==> r == s
    ensures e.DistrictPicked? && !DistrictFieldShown(tree, s) ==> r == s
    ensures e.DistrictPicked? && e.district in Geography.DistrictOptions(tree, s.selectedRegion, s.selectedProvince) ==>
      r.form.distrito == e.district
    ensures DistrictOffered(tree, s) ==> DistrictOffered(tree, r)
  {
    match e
    case DepartmentPicked(v) =>
      if v in Geography.DepartmentOptions(tree) then DepartmentChanged(s, v) else s
    case ProvincePicked(v) =>
      if v in Geography.ProvinceOptions(tree, s.selectedRegion) then ProvinceChanged(s, v) else s
    case DistrictPicked(v) =>
      if v in Geography.DistrictOptions(tree, s.selectedRegion, s.selectedProvince) then DistrictChanged(s, v) else s
    case QuantityButton(increment) => QuantityStepped(s, increment)
    case QuantityText(text) => QuantityTyped(s, text)
    case InitialQuantityProp(q) => InitialQuantityChanged(s, q)
    case ColorPicked(c) => ColorChosen(s, c)
    case SelectedColorProp(c) => ColorChosen(s, c.GetOr(DefaultColor))
    case Typed(input, value) => TextEntered(s, input, value)
  }

  /** A sequence of inputs applied in order; the Distrito field never leaves the offered districts. */
  function Run(tree: Option<Geography.Tree>, s: State, es: seq<Input>): (r: State)
    ensures DistrictOffered(tree, s) ==> DistrictOffered(tree, r)
    decreases |es|
  {
    if |es| == 0 then s else Run(tree, Apply(tree, s, es[0]), es[1..])
  }

  datatype Field = Nombre | Apellido | Celular | Direccion | Distrito | Departamento | Provincia | Quantity

  predicate DigitsOnly(s: string) {
    |s| > 0 && Decimal.AllDigits(s)
  }

  /** The fields the form schema rejects. */
  function SchemaErrors(f: FormData): (errs: set<Field>)
    ensures errs == {} <==>
      && |f.nombre| >= 2 && |f.apellido| >= 2
      && |f.celular| >= 9 && DigitsOnly(f.celular)
      && |f.direccion| >= 5
      && f.distrito != "" && f.departamento != "" && f.provincia != ""
      && f.quantity >= 1
    ensures Distrito in errs <==> f.distrito == ""
  {
    (if |f.nombre| < 2 then {Nombre} else {})
    + (if |f.apellido| < 2 then {Apellido} else {})
    + (if |f.celular| < 9 || !DigitsOnly(f.celular) then {Celular} else {})
    + (if |f.direccion| < 5 then {Direccion} else {})
    + (if f.distrito == "" then {Distrito} else {})
    + (if f.departamento == "" then {Departamento} else {})
    + (if f.provincia == "" then {Provincia} else {})
    + (if f.quantity < 1 then {Quantity} else {})
  }

  /** The customer and sale the submit handler passes to the purchase hook. */
  function PayloadOf(s: State): (p: Purchase.PurchasePayload)
    ensures p.customer.nombre == s.form.nombre && p.customer.apellido == s.form.apellido
    ensures p.customer.celular == s.form.celular && p.customer.direccion == s.form.direccion
    ensures p.customer.distrito == s.form.distrito && p.customer.provincia == s.form.provincia
    ensures p.customer.departamento == s.form.departamento && p.customer.referencia == s.form.referencia
    ensures p.sale.color == s.currentColor && p.sale.quantity == s.form.quantity
    ensures p.sale.unitPrice == Pricing.UnitPrice(s.form.quantity)
    ensures p.sale.totalAmount == p.sale.unitPrice * p.sale.quantity
  {
    var quote := Pricing.QuoteFor(s.form.quantity);
    Purchase.PurchasePayload(
      Purchase.CustomerPayload(s.form.nombre, s.form.apellido, s.form.celular, s.form.direccion,
                               s.form.distrito, s.form.provincia, s.form.departamento, s.form.referencia),
      Purchase.SalePayload(s.form.quantity, s.currentColor, quote.unitPrice, quote.total))
  }

  datatype SubmitOutcome =
    | Invalid(errors: set<Field>)      // the schema rejected the form; the handler never ran
    | DistrictRequired                 // the handler's own check: districts exist but none chosen
    | Submitted(payload: Purchase.PurchasePayload)

  /** Pressing "Realizar pedido": schema validation, then the handler's district check, then the purchase. */
  function Submit(tree: Option<Geography.Tree>, s: State): (r: SubmitOutcome)
    ensures r.Invalid? <==> SchemaErrors(s.form) != {}
    ensures r.Invalid? ==> r.errors == SchemaErrors(s.form)
    ensures r.Submitted? ==> r.payload == PayloadOf(s)
  {
    var errs := SchemaErrors(s.form);
    if errs != {} then Invalid(errs)
    else if |Geography.DistrictOptions(tree, s.selectedRegion, s.selectedProvince)| > 0 && s.form.distrito == "" then
      DistrictRequired
    else Submitted(PayloadOf(s))
  }

  /**
   * A submitted purchase carries a well-formed customer and a sale priced by
   * the tier rule: the purchase hook is only reached with valid data.
   */
  lemma SubmittedPayloadIsValid(tree: Option<Geography.Tree>, s: State)
    requires Submit(tree, s).Submitted?
    ensures var p := Submit(tree, s).payload;
      && |p.customer.nombre| >= 2 && |p.customer.apellido| >= 2
      && |p.customer.celular| >= 9 && DigitsOnly(p.customer.celular)
      && |p.customer.direccion| >= 5 && p.customer.distrito != ""
      && p.sale.quantity >= 1
      && p.sale.totalAmount == Pricing.QuoteFor(p.sale.quantity).total
  {
  }

  /**
   * As written, the schema already requires a district, so the handler's
   * conditional district check can never fire.
   */
  lemma DistrictCheckUnreachable(tree: Option<Geography.Tree>, s: State)
    ensures !Submit(tree, s).DistrictRequired?
  {
  }

  /**
   * As written, a province without districts can never be submitted: its
   * district selector is not shown, so in every state the modal can reach the
   * district is still empty, and the schema rejects it with a message that
   * belongs to the hidden field.
   */
  lemma {:induction false} ProvinceWithoutDistrictsBlocksSubmit(
    tree: Option<Geography.Tree>, initialQuantity: Option<int>, selectedColor: Option<string>, es: seq<Input>)
    requires var s := Run(tree, Initial(initialQuantity, selectedColor), es);
      Geography.DistrictOptions(tree, s.selectedRegion, s.selectedProvince) == []
    ensures var s := Run(tree, Initial(initialQuantity, selectedColor), es);
      && s.form.distrito == "" && !DistrictFieldShown(tree, s)
      && Submit(tree, s).Invalid? && Distrito in Submit(tree, s).errors
  {
    var s0 := Initial(initialQuantity, selectedColor);
    assert DistrictOffered(tree, s0);
  }

  /** A department "Lima" whose province "Huaral" lists no districts. */
  const DistrictlessTree: Option<Geography.Tree> := Some(map["Lima" := map["Huaral" := map[]]])

  /** The shopper fills in every visible field validly and picks that department and province. */
  const DistrictlessOrder: seq<Input> := [
    Typed(NombreText, "Ana"), Typed(ApellidoText, "Rojas"), Typed(CelularText, "987654321"),
    Typed(DireccionText, "Av. Sol 123"), DepartmentPicked("Lima"), ProvincePicked("Huaral")]

  /** Where that order leaves the modal: every visible field filled, Distrito still empty. */
  const DistrictlessState: State :=
    State(FormData("Ana", "Rojas", "987654321", "Av. Sol 123", "", "Lima", "Huaral", Some(""), 1), "Lima", "Huaral", DefaultColor)

  /** The state after the four text inputs of that order. */
  const DistrictlessTyped: State :=
    State(FormData("Ana", "Rojas", "987654321", "Av. Sol 123", "", "", "", Some(""), 1), "", "", DefaultColor)

  lemma DistrictlessOrderReachesState()
    ensures Run(DistrictlessTree, Initial(None, None), DistrictlessOrder) == DistrictlessState
  {
    DistrictlessTyping();
    DistrictlessPicks();
  }

  lemma DistrictlessTyping()
    ensures Run(DistrictlessTree, Initial(None, None), DistrictlessOrder)
         == Run(DistrictlessTree, DistrictlessTyped, DistrictlessOrder[4..])
  {
    var tree := DistrictlessTree;
    var es := DistrictlessOrder;
    var s0 := Initial(None, None);
    assert Run(tree, s0, es) == Run(tree, Apply(tree, s0, es[0]), es[1..]);
    assert es[1..][0] == es[1] && es[1..][1..] == es[2..];
    assert es[2..][0] == es[2] && es[2..][1..] == es[3..];
    assert es[3..][0] == es[3] && es[3..][1..] == es[4..];
  }

  lemma DistrictlessPicks()
    ensures Run(DistrictlessTree, DistrictlessTyped, DistrictlessOrder[4..]) == DistrictlessState
  {
    var tree := DistrictlessTree;
    var es := DistrictlessOrder;
    var s4 := DistrictlessTyped;
    assert "Lima" in Geography.DepartmentOptions(tree);
    var s5 := DepartmentChanged(s4, "Lima");
    assert "Huaral" in Geography.ProvinceOptions(tree, "Lima");
    assert es[4..][0] == es[4] && es[4..][1..] == es[5..];
    assert Run(tree, s4, es[4..]) == Run(tree, s5, es[5..]);
    assert es[5..][0] == es[5] && es[5..][1..] == [];
    assert Run(tree, s5, es[5..]) == Run(tree, ProvinceChanged(s5, "Huaral"), []);
  }

  /**
   * In that state the schema reports only the hidden Distrito field, while the
   * intended rule submits the order.
   */
  lemma DistrictlessProvinceExample()
    ensures Run(DistrictlessTree, Initial(None, None), DistrictlessOrder) == DistrictlessState
    ensures !DistrictFieldShown(DistrictlessTree, DistrictlessState)
    ensures Submit(DistrictlessTree, DistrictlessState) == Invalid({Distrito})
    ensures IntendedSubmit(DistrictlessTree, DistrictlessState) == Submitted(PayloadOf(DistrictlessState))
  {
    DistrictlessOrderReachesState();
    DistrictlessFieldHidden();
    DistrictlessSchemaErrors();
  }

  lemma DistrictlessFieldHidden()
    ensures !DistrictFieldShown(DistrictlessTree, DistrictlessState)
  {
    Geography.NoDistrictsIff(DistrictlessTree, "Lima", "Huaral");
  }

  lemma DistrictlessSchemaErrors()
    ensures SchemaErrors(DistrictlessState.form) == {Distrito}
  {
    assert Decimal.AllDigits("987654321");
  }

  /** The schema with the district required only when the chosen province has districts. */
  function IntendedErrors(f: FormData, districtsAvailable: bool): (errs: set<Field>)
    ensures Distrito in errs <==> districtsAvailable && f.distrito == ""
    ensures errs <= SchemaErrors(f)
    ensures SchemaErrors(f) - errs <= {Distrito}
  {
    SchemaErrors(f) - (if districtsAvailable then {} else {Distrito})
  }

  /** Submission with the district rule the handler's comment and check describe. */
  function IntendedSubmit(tree: Option<Geography.Tree>, s: State): (r: SubmitOutcome)
    ensures r.Submitted? ==> r.payload == PayloadOf(s)
  {
    var available := |Geography.DistrictOptions(tree, s.selectedRegion, s.selectedProvince)| > 0;
    var errs := IntendedErrors(s.form, available);
    if errs != {} then Invalid(errs)
    else if available && s.form.distrito == "" then DistrictRequired
    else Submitted(PayloadOf(s))
  }

  /**
   * With the intended rule, a complete form for a province that has no
   * districts is submitted, and wherever districts exist the outcome is the
   * same as the schema's.
   */
  lemma IntendedSubmitAcceptsDistrictlessProvince(tree: Option<Geography.Tree>, s: State)
    requires Geography.DistrictOptions(tree, s.selectedRegion, s.selectedProvince) == []
    requires SchemaErrors(s.form) <= {Distrito}
    ensures IntendedSubmit(tree, s) == Submitted(PayloadOf(s))
  {
  }

  lemma IntendedSubmitAgreesWhenDistrictsExist(tree: Option<Geography.Tree>, s: State)
    requires |Geography.DistrictOptions(tree, s.selectedRegion, s.selectedProvince)| > 0
    ensures IntendedSubmit(tree, s) == Submit(tree, s)
  {
  }
}
