/**
 * The admin orders table: the local list updates after a shipping-status
 * change or a customer edit, and the text of its per-row cells.
 */
module Dashboard {
  import opened Options
  import opened Domain
  import Decimal
  import Strings
  import CustomerEditor

  /** `orders.map(f)`. */
  function MapOrders(orders: seq<Order>, f: Order -> Order): (r: seq<Order>)
    ensures |r| == |orders|
    ensures forall i :: 0 <= i < |orders| ==> r[i] == f(orders[i])
  {
    if |orders| == 0 then [] else [f(orders[0])] + MapOrders(orders[1..], f)
  }

  function SetStatusIfId(id: string, estado: ShippingStatus): Order -> Order {
    (o: Order) => if o.id == Some(id) then o.(estadoEnvio := estado) else o
  }

  /**
   * A choice in the status dropdown: the orders whose id is `id` get the new
   * shipping status, locally, whatever the database answered.
   */
  function UpdateEnvio(orders: seq<Order>, id: string, estado: ShippingStatus, remote: RemoteOutcome): (r: seq<Order>)
    ensures |r| == |orders|
    ensures forall i :: 0 <= i < |orders| && orders[i].id == Some(id) ==> r[i].estadoEnvio == estado
    ensures forall i :: 0 <= i < |orders| ==> r[i].(estadoEnvio := orders[i].estadoEnvio) == orders[i]
    ensures forall i :: 0 <= i < |orders| && orders[i].id != Some(id) ==> r[i] == orders[i]
  {
    MapOrders(orders, SetStatusIfId(id, estado))
  }

  /** The database's answer to the status update does not affect the list. */
  lemma UpdateEnvioIgnoresRemote(orders: seq<Order>, id: string, estado: ShippingStatus, a: RemoteOutcome, b: RemoteOutcome)
    ensures UpdateEnvio(orders, id, estado, a) == UpdateEnvio(orders, id, estado, b)
  {
  }

  /** Choosing the same status twice is the same as choosing it once. */
  lemma UpdateEnvioIdempotent(orders: seq<Order>, id: string, estado: ShippingStatus, remote: RemoteOutcome)
    ensures UpdateEnvio(UpdateEnvio(orders, id, estado, remote), id, estado, remote) == UpdateEnvio(orders, id, estado, remote)
  {
  }

  /** Status changes on two different orders can be applied in either order. */
  lemma UpdateEnvioCommutes(orders: seq<Order>, id1: string, e1: ShippingStatus, id2: string, e2: ShippingStatus, remote: RemoteOutcome)
    requires id1 != id2
    ensures UpdateEnvio(UpdateEnvio(orders, id1, e1, remote), id2, e2, remote)
         == UpdateEnvio(UpdateEnvio(orders, id2, e2, remote), id1, e1, remote)
  {
  }

  /** `order.customers?.id`: absent when the order has no customer. */
  function CustomerKey(o: Order): Option<string> {
    if o.customers.None? then None else o.customers.value.id
  }

  function ReplaceCustomerIfId(updated: Customer): Order -> Order {
    (o: Order) => if CustomerKey(o) == updated.id then o.(customers := Some(updated)) else o
  }

  /**
   * `handleUserUpdate`: the orders whose customer id equals the updated
   * customer's id now carry the updated customer; no other order changes.
   * Like `undefined === undefined`, an updated customer without an id also
   * matches every order whose customer id is absent.
   */
  function HandleUserUpdate(orders: seq<Order>, updated: Customer): (r: seq<Order>)
    ensures |r| == |orders|
    ensures forall i :: 0 <= i < |orders| && CustomerKey(orders[i]) == updated.id ==>
      r[i] == orders[i].(customers := Some(updated))
    ensures forall i :: 0 <= i < |orders| && CustomerKey(orders[i]) != updated.id ==> r[i] == orders[i]
  {
    MapOrders(orders, ReplaceCustomerIfId(updated))
  }

  /** A customer edit keeps every order's shipping and payment state. */
  lemma HandleUserUpdateKeepsStatuses(orders: seq<Order>, updated: Customer)
    ensures forall i :: 0 <= i < |orders| ==>
      HandleUserUpdate(orders, updated)[i].estadoEnvio == orders[i].estadoEnvio
      && HandleUserUpdate(orders, updated)[i].estadoPago == orders[i].estadoPago
      && HandleUserUpdate(orders, updated)[i].id == orders[i].id
  {
  }

  /**
   * After a successful save in the customer modal, every row of that
   * customer shows the saved draft.
   */
  lemma SavedCustomerReachesRows(orders: seq<Order>, e: CustomerEditor.Editor, user: Customer)
    requires e.edited.Some? && Truthy(user.id) && e.edited.value.id == user.id
    ensures var saved := CustomerEditor.Save(e, user, Accepted);
      saved.notified.Some? &&
      forall i :: 0 <= i < |orders| && CustomerKey(orders[i]) == user.id ==>
        HandleUserUpdate(orders, saved.notified.value)[i].customers == Some(e.edited.value)
  {
  }

  const Dash: string := "—"

  /** `item.cantidad || 0`: a missing quantity counts as zero. */
  function UnitsOf(item: OrderItem): int {
    if item.cantidad.Some? then item.cantidad.value else 0
  }

  /** The quantities of the items, added up from the left as `reduce` does. */
  function SumUnits(items: seq<OrderItem>): int
    decreases |items|
  {
    if |items| == 0 then 0 else SumUnits(items[..|items| - 1]) + UnitsOf(items[|items| - 1])
  }

  lemma {:induction false} SumUnitsAppend(a: seq<OrderItem>, b: seq<OrderItem>)
    ensures SumUnits(a + b) == SumUnits(a) + SumUnits(b)
    decreases |b|
  {
    if |b| > 0 {
      assert (a + b)[..|a + b| - 1] == a + b[..|b| - 1];
      SumUnitsAppend(a, b[..|b| - 1]);
    } else {
      assert a + b == a;
    }
  }

  /** With one unit per item, as the checkout records them, the quantity is the number of items. */
  lemma {:induction false} SumOfSingleUnits(items: seq<OrderItem>)
    requires forall i :: 0 <= i < |items| ==> items[i].cantidad == Some(1)
    ensures SumUnits(items) == |items|
    decreases |items|
  {
    if |items| > 0 {
      SumOfSingleUnits(items[..|items| - 1]);
    }
  }

  /** Quantities that are never negative add up to at least each one of them. */
  lemma {:induction false} SumBoundsEachItem(items: seq<OrderItem>, k: nat)
    requires forall i :: 0 <= i < |items| ==> UnitsOf(items[i]) >= 0
    requires k < |items|
    ensures SumUnits(items) >= UnitsOf(items[k])
    decreases |items|
  {
    var init := items[..|items| - 1];
    SumNonNegative(init);
    if k < |items| - 1 {
      SumBoundsEachItem(init, k);
    }
  }

  lemma {:induction false} SumNonNegative(items: seq<OrderItem>)
    requires forall i :: 0 <= i < |items| ==> UnitsOf(items[i]) >= 0
    ensures SumUnits(items) >= 0
    decreases |items|
  {
    if |items| > 0 {
      SumNonNegative(items[..|items| - 1]);
    }
  }

  datatype QuantityCell = NoItems | Units(total: int)

  /** The "Cantidad" cell: a dash for a missing or empty item list, else the summed quantities. */
  function QuantityCellOf(o: Order): (c: QuantityCell)
    ensures c.NoItems? <==> o.orderItems.None? || |o.orderItems.value| == 0
    ensures c.Units? ==> c.total == SumUnits(o.orderItems.value)
  {
    if o.orderItems.None? || |o.orderItems.value| == 0 then NoItems else Units(SumUnits(o.orderItems.value))
  }

  /** The "Color" cell: a dash, the only item's colour, or the first colour and how many more. */
  function ColorCellOf(o: Order): (c: string)
    ensures o.orderItems.None? || |o.orderItems.value| == 0 ==> c == Dash
    ensures o.orderItems.Some? && |o.orderItems.value| == 1 ==> c == o.orderItems.value[0].color
    ensures o.orderItems.Some? && |o.orderItems.value| >= 2 ==>
      c == o.orderItems.value[0].color + " +" + Decimal.Text(|o.orderItems.value| - 1)
  {
    if o.orderItems.None? || |o.orderItems.value| == 0 then Dash
    else
      var items := o.orderItems.value;
      if |items| == 1 then items[0].color
      else items[0].color + " +" + Decimal.Text(|items| - 1)
  }

  /** The number after " +" in the colour cell reads back as the count of the other items. */
  lemma ColorCellCountsOthers(o: Order)
    requires o.orderItems.Some? && |o.orderItems.value| >= 2
    ensures var c := ColorCellOf(o); var k := |o.orderItems.value[0].color|;
      c[..k] == o.orderItems.value[0].color
      && c[k..k + 2] == " +"
      && Decimal.ParseInt(c[k + 2..]) == Some(|o.orderItems.value| - 1)
  {
    var items := o.orderItems.value;
    var c := ColorCellOf(o);
    var k := |items[0].color|;
    assert c[k + 2..] == Decimal.Text(|items| - 1);
    Decimal.ParseText(|items| - 1);
  }

  const NoUserLabel: string := "Sin usuario"

  /** The "Cliente" cell: a placeholder without a customer, else a link labelled with the full name. */
  datatype CustomerCell = NoUser(text: string) | UserLink(text: string, customer: Customer)

  function CustomerCellOf(o: Order): (c: CustomerCell)
    ensures o.customers.None? <==> c == NoUser(NoUserLabel)
    ensures o.customers.Some? ==>
      c.UserLink? && c.customer == o.customers.value
      && c.text == o.customers.value.nombre + " " + o.customers.value.apellido
  {
    match o.customers
    case None => NoUser(NoUserLabel)
    case Some(u) => UserLink(u.nombre + " " + u.apellido, u)
  }

  /** The dropdown's choices, in the order they are listed. */
  const ShippingOptions: seq<ShippingStatus> := [EnvioPendiente, Preparado, EnRuta, EnAgencia, Entregado]

  /** The dropdown offers every shipping status exactly once. */
  lemma ShippingOptionsComplete()
    ensures forall s: ShippingStatus :: s in ShippingOptions
    ensures forall i, j :: 0 <= i < j < |ShippingOptions| ==> ShippingOptions[i] != ShippingOptions[j]
  {
    forall s: ShippingStatus
      ensures s in ShippingOptions
    {
      match s
      case EnvioPendiente => assert ShippingOptions[0] == s;
      case Preparado => assert ShippingOptions[1] == s;
      case EnRuta => assert ShippingOptions[2] == s;
      case EnAgencia => assert ShippingOptions[3] == s;
      case Entregado => assert ShippingOptions[4] == s;
    }
  }

  datatype StatusSelector = StatusSelector(current: ShippingStatus, options: seq<ShippingStatus>)

  /** The "Envío" cell: nothing for an order without an id, else the dropdown preset to its status. */
  function StatusCellOf(o: Order): (c: Option<StatusSelector>)
    ensures c.None? <==> !Truthy(o.id)
    ensures c.Some? ==> c.value.current == o.estadoEnvio && c.value.options == ShippingOptions
  {
    if !Truthy(o.id) then None else Some(StatusSelector(o.estadoEnvio, ShippingOptions))
  }

  /**
   * The date normalisation before formatting: the first space becomes 'T'
   * and 'Z' is appended, turning "2025-11-05 23:25:47.881608" into an
   * ISO timestamp in UTC.
   */
  function NormalizeTimestamp(s: string): (r: string)
    ensures |r| == |s| + 1 && r[|s|] == 'Z'
    ensures ' ' !in s ==> r[..|s|] == s
    ensures ' ' in s ==>
      var k := Strings.IndexOf(s, ' ').value;
      r[k] == 'T' && r[..k] == s[..k] && r[k + 1..|s|] == s[k + 1..]
  {
    Strings.ReplaceFirst(s, ' ', 'T') + "Z"
  }

  /** Normalisation loses nothing: dropping the 'Z' and restoring the space gives back the input. */
  lemma NormalizeTimestampInvertible(s: string)
    requires ' ' in s
    ensures var k := Strings.IndexOf(s, ' ').value;
      NormalizeTimestamp(s)[..|s|][k := ' '] == s
  {
    var k := Strings.IndexOf(s, ' ').value;
    var r := NormalizeTimestamp(s)[..|s|][k := ' '];
    forall i | 0 <= i < |s|
      ensures r[i] == s[i]
    {
      if i < k {
        assert NormalizeTimestamp(s)[..k] == s[..k];
        assert s[..k][i] == s[i];
      } else if i > k {
        assert NormalizeTimestamp(s)[k + 1..|s|] == s[k + 1..];
        assert s[k + 1..][i - k - 1] == s[i];
      }
    }
  }

  /** The "Fecha" cell: a dash without a creation time, else the timestamp handed to the date formatter. */
  function DateCellInput(o: Order): (c: Option<string>)
    ensures c.None? <==> !Truthy(o.createdAt)
    ensures c.Some? ==> c.value == NormalizeTimestamp(o.createdAt.value)
  {
    if !Truthy(o.createdAt) then None else Some(NormalizeTimestamp(o.createdAt.value))
  }
}
