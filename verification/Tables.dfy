/** The database rows and the errors a request can end with.
    A row of a table is named by its position; carts and cart lines also carry the
    identifier a client sees. Prices are whole paise. Quote, order and payment
    amounts are ten-thousandths of a rupee. */
module Tables {
  import opened Prelude

  type Id = nat

  datatype Product = Product(tenant: Id, active: bool, price: nat)
  datatype Variant = Variant(tenant: Id, product: Id, active: bool, price: nat)
  datatype StockKey = StockKey(tenant: Id, product: Id, variant: Option<Id>)
  datatype Stock = Stock(available: int, reserved: int)
  datatype Catalog = Catalog(
    products: map<Id, Product>,
    variants: map<Id, Variant>,
    inventory: map<StockKey, Stock>)

  datatype Line = Line(id: Id, product: Id, variant: Option<Id>, quantity: int, price: nat)
  datatype CartStatus = CartActive | CartConverted
  datatype Cart = Cart(id: Id, tenant: Id, user: Id, status: CartStatus, currency: string, items: seq<Line>)
  datatype Shop = Shop(catalog: Catalog, carts: seq<Cart>)

  datatype QuoteStatus = QuoteActive | QuoteExpired | QuoteConfirmed
  datatype Quote = Quote(
    tenant: Id, cart: nat, currency: string,
    subtotal: int, discount: int, tax: int, total: int,
    expiresAt: int, status: QuoteStatus)
  datatype Confirmation = Confirmation(tenant: Id, quote: nat, amount: int, currency: string)
  datatype OrderItem = OrderItem(
    tenant: Id, product: Id, variant: Option<Id>, quantity: int,
    unitPrice: nat, discount: int, lineTotal: int)
  datatype OrderStatus = OrderCreated | OrderPending | OrderPaid | OrderFailed
  datatype Order = Order(
    tenant: Id, customer: Id, cart: nat, currency: string,
    subtotal: int, discount: int, tax: int, total: int,
    status: OrderStatus, items: seq<OrderItem>)

  datatype PaymentStatus = PayCreated | PayPending | PayAuthorized | PayPaid | PayFailed
  datatype Payment = Payment(
    tenant: Id, order: nat, providerOrder: Id, amount: int, currency: string, status: PaymentStatus)
  datatype AttemptStatus = AttemptSuccess | AttemptFailed
  datatype Attempt = Attempt(tenant: Id, payment: nat, amount: int, status: AttemptStatus)

  /** An event carries the sender's identifier or, when it has none, one drawn here. */
  datatype EventId = Given(name: Id) | Generated(serial: nat)

  datatype Store = Store(
    shop: Shop,
    quotes: seq<Quote>,
    confirmations: seq<Confirmation>,
    orders: seq<Order>,
    payments: seq<Payment>,
    attempts: seq<Attempt>,
    events: set<EventId>,
    nextEvent: nat)

  const INR := "INR"
  const FIFTEEN_MINUTES := 900

  datatype Error =
    // cart
    | BadQuantity | ProductNotFound | ProductInactive | VariantNotFound | VariantInactive
    | InsufficientInventory | InsufficientCombinedInventory | ItemNotFound
    // confirmation token
    | InvalidToken | WrongTokenType | WrongUser | WrongTenant | WrongAction | WrongTarget
    | WrongQuantity | WrongVariant | MissingPrice | PriceChanged
    // checkout
    | CartMismatch | CartEmpty | CartInvalid | PolicyDenied | QuoteNotFound | QuoteHasExpired
    // payment
    | OrderNotFound | OrderNotCreated | NumericOverflow | AmountMismatch | CurrencyMismatch
    // database
    | MultipleRows | MissingRow | NullViolation | UniqueViolation
}
