/**
 * The record shapes of the store's tables: Plant, Order, OrderItem and CartItem,
 * with their field defaults and choice lists. Decimal money fields (2 places) are
 * kept as integer cents.
 */
module Models {
  import opened Results

  type PlantId = int
  type CategoryId = int
  type UserId = int
  type OrderId = int

  /** A money amount in cents: `DecimalField(decimal_places=2)` scaled by 100. */
  type Cents = int

  // ---------------------------------------------------------------- Plant

  datatype Plant = Plant(
    name: string,
    price: Cents,
    description: string,
    category: CategoryId,
    stock: int,
    available: bool)

  /** A plant created with only its required fields: stock and availability take their defaults. */
  function NewPlant(name: string, price: Cents, description: string, category: CategoryId): (p: Plant)
    ensures p.stock == 0 && p.available
    ensures p.name == name && p.price == price && p.description == description && p.category == category
  {
    Plant(name, price, description, category, 0, true)
  }

  // ---------------------------------------------------------------- Order

  datatype OrderStatus = Pending | Shipped | Delivered

  /** The stored value of each status choice. */
  function StatusCode(s: OrderStatus): string
  {
    match s
    case Pending => "Pending"
    case Shipped => "Shipped"
    case Delivered => "Delivered"
  }

  /** Reads a stored status back; only the three declared choices are statuses. */
  function ParseStatus(code: string): (r: Option<OrderStatus>)
    ensures r.Some? <==> code in ["Pending", "Shipped", "Delivered"]
    ensures r.Some? ==> StatusCode(r.value) == code
  {
    if code == "Pending" then Some(Pending)
    else if code == "Shipped" then Some(Shipped)
    else if code == "Delivered" then Some(Delivered)
    else None
  }

  lemma StatusRoundTrip(s: OrderStatus)
    ensures ParseStatus(StatusCode(s)) == Some(s)
  {
    match s
    case Pending =>
    case Shipped =>
    case Delivered =>
  }

  datatype PaymentMethod = Cod | Online

  /** The stored value of each payment choice. */
  function PaymentCode(m: PaymentMethod): string
  {
    match m
    case Cod => "COD"
    case Online => "ONLINE"
  }

  /** Reads a stored payment method back; only "COD" and "ONLINE" are payment methods. */
  function ParsePayment(code: string): (r: Option<PaymentMethod>)
    ensures r.Some? <==> code in ["COD", "ONLINE"]
    ensures r.Some? ==> PaymentCode(r.value) == code
  {
    if code == "COD" then Some(Cod)
    else if code == "ONLINE" then Some(Online)
    else None
  }

  lemma PaymentRoundTrip(m: PaymentMethod)
    ensures ParsePayment(PaymentCode(m)) == Some(m)
  {
    match m
    case Cod =>
    case Online =>
  }

  datatype Shipping = Shipping(name: string, address: string, phone: string, city: string, pincode: string)

  const DefaultName := "Customer"
  const DefaultAddress := "Address not provided"
  const DefaultPhone := "0000000000"
  const DefaultCity := "City"
  const DefaultPincode := "000000"

  /**
   * An order row. `paymentMethod` holds the stored string: the choice list is not
   * enforced when a view creates the row, so any string can end up here.
   */
  datatype Order = Order(
    id: OrderId,
    user: UserId,
    total: Cents,
    shipping: Shipping,
    status: OrderStatus,
    paymentMethod: string)

  /** A shipping field: the given value, or the field's default when it is omitted. */
  function FieldOr(given: Option<string>, default: string): (v: string)
    ensures given.Some? ==> v == given.value
    ensures given.None? ==> v == default
  {
    match given
    case Some(s) => s
    case None => default
  }

  /**
   * An order created with the given fields; a `None` argument stands for a keyword
   * that was omitted, which takes the field's default.
   */
  function NewOrder(
    id: OrderId, user: UserId, total: Cents,
    name: Option<string>, address: Option<string>, phone: Option<string>,
    city: Option<string>, pincode: Option<string>,
    paymentMethod: Option<string>): (o: Order)
    ensures o.id == id && o.user == user && o.total == total
    ensures o.status == Pending
    ensures paymentMethod.None? ==> o.paymentMethod == PaymentCode(Cod)
    ensures paymentMethod.Some? ==> o.paymentMethod == paymentMethod.value
    ensures name.None? ==> o.shipping.name == "Customer"
    ensures address.None? ==> o.shipping.address == "Address not provided"
    ensures phone.None? ==> o.shipping.phone == "0000000000"
    ensures city.None? ==> o.shipping.city == "City"
    ensures pincode.None? ==> o.shipping.pincode == "000000"
    ensures name.Some? ==> o.shipping.name == name.value
    ensures address.Some? ==> o.shipping.address == address.value
    ensures phone.Some? ==> o.shipping.phone == phone.value
    ensures city.Some? ==> o.shipping.city == city.value
    ensures pincode.Some? ==> o.shipping.pincode == pincode.value
  {
    Order(id, user, total,
      Shipping(FieldOr(name, DefaultName), FieldOr(address, DefaultAddress), FieldOr(phone, DefaultPhone),
               FieldOr(city, DefaultCity), FieldOr(pincode, DefaultPincode)),
      Pending, FieldOr(paymentMethod, PaymentCode(Cod)))
  }

  // ---------------------------------------------------------------- OrderItem

  /** An order line. `price` is its own column, copied from the plant when the line is created. */
  datatype OrderItem = OrderItem(order: OrderId, plant: PlantId, quantity: int, price: Cents)

  // ---------------------------------------------------------------- CartItem

  /** A persisted cart line of a logged-in user. */
  datatype CartItem = CartItem(user: UserId, plant: PlantId, quantity: int)

  /** The default of `CartItem.quantity`, used when a line is created without one. */
  const DefaultCartQuantity := 1

  /** A cart line created without a quantity takes the column's default. */
  function NewCartItem(user: UserId, plant: PlantId): (item: CartItem)
    ensures item.user == user && item.plant == plant
    ensures item.quantity == 1 && Storable(item.quantity)
  {
    CartItem(user, plant, DefaultCartQuantity)
  }

  /**
   * A cart line's subtotal: `quantity` units at `price` each. Only the price
   * and the quantity matter, not whose line it is.
   */
  function Subtotal(price: Cents, quantity: int): (r: Cents)
    ensures quantity == 0 ==> r == 0
    ensures price >= 0 && quantity >= 0 ==> r >= 0
  {
    price * quantity
  }

  /** A line costs nothing when empty and one more unit price per added unit. */
  lemma SubtotalPerUnit(price: Cents, quantity: int)
    ensures Subtotal(price, 0) == 0
    ensures Subtotal(price, quantity + 1) == Subtotal(price, quantity) + price
    ensures Subtotal(price, quantity - 1) == Subtotal(price, quantity) - price
  {
  }

  /**
   * What the database accepts in `CartItem.quantity`: the column is a
   * `PositiveIntegerField`, whose CHECK constraint admits zero and up.
   */
  predicate Storable(quantity: int)
  {
    quantity >= 0
  }
}
