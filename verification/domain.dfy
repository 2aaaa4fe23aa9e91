/**
 * The storefront's records: customers, orders with their payment and
 * shipping states, order items, and products with their colour variants.
 * Money is kept in integer cents.
 */
module Domain {
  import opened Options

  datatype Customer = Customer(
    id: Option<string>,
    nombre: string,
    apellido: string,
    numero: string,
    direccion: string,
    referencia: string,
    distrito: string,
    provincia: string,
    departamento: string,
    dni: Option<string>)

  datatype PaymentStatus = PagoPendiente | Adelantado | PagoRestante | Pagado {
    /** The value stored in the `estado_pago` column. */
    function Wire(): string {
      match this
      case PagoPendiente => "pendiente"
      case Adelantado => "adelantado"
      case PagoRestante => "pago_restante"
      case Pagado => "pagado"
    }
  }

  datatype ShippingStatus = EnvioPendiente | Preparado | EnRuta | EnAgencia | Entregado {
    /** The value stored in the `estado_envio` column. */
    function Wire(): string {
      match this
      case EnvioPendiente => "pendiente"
      case Preparado => "preparado"
      case EnRuta => "en_ruta"
      case EnAgencia => "en_agencia"
      case Entregado => "entregado"
    }
  }

  /** Distinct shipping states are stored as distinct column values. */
  lemma ShippingWireInjective(a: ShippingStatus, b: ShippingStatus)
    requires a.Wire() == b.Wire()
    ensures a == b
  {
  }

  /** Distinct payment states are stored as distinct column values. */
  lemma PaymentWireInjective(a: PaymentStatus, b: PaymentStatus)
    requires a.Wire() == b.Wire()
    ensures a == b
  {
  }

  datatype OrderItem = OrderItem(
    id: Option<string>,
    orderId: Option<string>,
    color: string,
    cantidad: Option<int>,
    precioUnitario: int)

  datatype Order = Order(
    id: Option<string>,
    userId: string,
    total: int,
    estadoPago: PaymentStatus,
    estadoEnvio: ShippingStatus,
    createdAt: Option<string>,
    updatedAt: Option<string>,
    customers: Option<Customer>,
    orderItems: Option<seq<OrderItem>>)

  datatype ProductVariant = ProductVariant(
    id: string,
    productoId: string,
    activo: bool,
    nombre: string,
    tamanio: string,
    color: string,
    stock: int,
    createdAt: string)

  datatype Product = Product(
    id: string,
    nombre: string,
    descripcion: string,
    sku: string,
    precio: int,
    createdAt: string,
    descuentoPorcentaje: int,
    precioOferta: int,
    ofertaActiva: bool,
    productVariants: Option<seq<ProductVariant>>)

  /** What a remote write reported; several callers ignore it. */
  datatype RemoteOutcome = Accepted | Rejected(message: string)
}
