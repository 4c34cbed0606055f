/** The shop's entities (product/models.py) and the values derived from them:
    sale flags, coupon validity, cart line prices and cart totals, order
    statuses and order numbers. Money is an exact `real`: the Decimal
    context's 28-digit precision and the columns' two-place rounding are not
    modelled, so a quotient such as discount_percentage's division by the
    compare price is taken exactly. */
module Models {
  import opened Basics

  // Primary keys. Products, carts and orders use uuid4 in the source; cart
  // items, variants, users, categories and brands use auto-increment integers.
  type ProductId = nat
  type VariantId = x: int | x > 0 witness 1   // auto-increment ids start at 1
  type CategoryId = nat
  type BrandId = nat
  type UserId = nat
  type CartId = nat
  type ItemId = nat
  type OrderId = nat

  datatype StockStatus = InStock | OutOfStock | LimitedStock

  datatype Category = Category(name: string, parent: Option<CategoryId>, isActive: bool)

  datatype Brand = Brand(name: string, isActive: bool)

  datatype Product = Product(
    name: string,
    description: string,
    shortDescription: string,
    sku: string,
    category: CategoryId,
    brand: Option<BrandId>,
    price: real,
    comparePrice: Option<real>,
    stockQuantity: int,          // an int: checkout may drive it below zero
    stockStatus: StockStatus,
    trackInventory: bool,
    isActive: bool)

  datatype Variant = Variant(
    product: ProductId,
    name: string,
    sku: string,
    price: real,
    stockQuantity: int,
    isActive: bool)

  /** The product and variant tables together. */
  datatype Catalog = Catalog(products: map<ProductId, Product>, variants: map<VariantId, Variant>)

  datatype DiscountType = Percentage | FixedAmount

  /** A coupon row; timestamps are plain integers (seconds, say). */
  datatype Coupon = Coupon(
    discountType: DiscountType,
    discountValue: real,
    minimumOrderAmount: Option<real>,
    maximumDiscountAmount: Option<real>,
    usageLimit: Option<nat>,
    usedCount: nat,
    isActive: bool,
    validFrom: int,
    validUntil: int)

  /** One cart row. Its price is not stored: it is read from the catalog. */
  datatype CartLine = CartLine(id: ItemId, product: ProductId, variant: Option<VariantId>, quantity: nat)

  /** A session key as a new session creates it: never empty. A customer's
      cart stores the empty string in its session key column. */
  type SessionKey = s: string | s != "" witness "k"

  /** A cart belongs to a customer or to an anonymous session key. */
  datatype Cart = Cart(customer: Option<UserId>, sessionKey: string, lines: seq<CartLine>)

  /** Who is asking: a logged-in customer, or an anonymous visitor whose
      session may not have a key yet. */
  datatype Requester = Customer(user: UserId) | Visitor(sessionKey: Option<SessionKey>)

  datatype OrderStatus = Pending | Confirmed | Processing | Shipped | Delivered | Cancelled | Refunded

  datatype PaymentStatus = PaymentPending | Paid | Failed | PaymentRefunded | PartiallyRefunded

  /** An order row's frozen copy of one cart line. */
  datatype OrderItem = OrderItem(
    product: ProductId,
    variant: Option<VariantId>,
    quantity: nat,
    unitPrice: real,
    totalPrice: real,
    productName: string,
    productSku: string,
    variantName: string)

  datatype Order = Order(
    orderNumber: string,
    customer: UserId,
    status: OrderStatus,
    paymentStatus: PaymentStatus,
    subtotal: real,
    taxAmount: real,
    shippingAmount: real,
    discountAmount: real,
    totalAmount: real,
    billingAddress: string,      // JSON documents, kept opaque
    shippingAddress: string,
    notes: string,
    items: seq<OrderItem>)

  // ---------------------------------------------------------------------
  // Product.is_on_sale and Product.discount_percentage

  /** `compare_price and price < compare_price`: a null or zero compare price is falsy. */
  predicate IsOnSale(p: Product) {
    p.comparePrice.Some? && p.comparePrice.value != 0.0 && p.price < p.comparePrice.value
  }

  /** Python's round(x) for a Decimal: nearest integer, ties to the even one. */
  function RoundHalfEven(y: real): (n: int)
    ensures y - 0.5 <= n as real <= y + 0.5
    ensures y == y.Floor as real ==> n == y.Floor
    ensures y - y.Floor as real == 0.5 ==> n % 2 == 0
  {
    var f := y.Floor;
    var frac := y - f as real;
    if frac < 0.5 then f
    else if frac > 0.5 then f + 1
    else if f % 2 == 0 then f else f + 1
  }

  /** The exact markdown of an on-sale product, in percent. */
  function ExactMarkdown(p: Product): real
    requires IsOnSale(p)
  {
    var c := p.comparePrice.value;
    ((c - p.price) / c) * 100.0
  }

  /** round(((compare - price) / compare) * 100, 2), or 0 when not on sale. */
  function DiscountPercentage(p: Product): (r: real)
    ensures !IsOnSale(p) ==> r == 0.0
    ensures IsOnSale(p) ==> ExactMarkdown(p) - 0.005 <= r <= ExactMarkdown(p) + 0.005
  {
    if IsOnSale(p) then RoundHalfEven(ExactMarkdown(p) * 100.0) as real / 100.0 else 0.0
  }

  /** With a non-negative price, the rounded markdown is a percentage. */
  lemma DiscountPercentageInRange(p: Product)
    requires p.price >= 0.0
    ensures 0.0 <= DiscountPercentage(p) <= 100.0
  {
    if IsOnSale(p) {
      var c := p.comparePrice.value;
      assert c > 0.0;
      var q := (c - p.price) / c;
      assert q * c == c - p.price;
      assert 0.0 < q <= 1.0;
      var y := ExactMarkdown(p) * 100.0;
      assert 0.0 < y <= 10000.0;
      var n := RoundHalfEven(y);
      assert 0 <= n <= 10000;
    }
  }

  // ---------------------------------------------------------------------
  // Coupon.is_valid

  /** Active, inside its validity window, and not used up. */
  predicate CouponIsValid(c: Coupon, now: int) {
    && c.isActive
    && c.validFrom <= now <= c.validUntil
    && (c.usageLimit.None? || c.usedCount < c.usageLimit.value)
  }

  /** Once a limited coupon has been used as often as its limit, it stays
      invalid however often it is used again; and a use never makes an
      invalid coupon valid. */
  lemma CouponUseNeverRevalidates(c: Coupon, now: int)
    ensures !CouponIsValid(c, now) ==> !CouponIsValid(c.(usedCount := c.usedCount + 1), now)
    ensures c.usageLimit.Some? && c.usedCount + 1 >= c.usageLimit.value
            ==> !CouponIsValid(c.(usedCount := c.usedCount + 1), now)
  {
  }

  // ---------------------------------------------------------------------
  // CartItem.unit_price / total_price and Cart.total_items / total_price

  /** The line refers to rows that exist (foreign keys). */
  predicate LineIn(c: Catalog, l: CartLine) {
    l.product in c.products && (l.variant.Some? ==> l.variant.value in c.variants)
  }

  predicate LinesIn(c: Catalog, ls: seq<CartLine>) {
    forall k :: 0 <= k < |ls| ==> LineIn(c, ls[k])
  }

  /** The variant's price when the line has a variant, else the product's:
      read from the catalog each time, never stored on the line. */
  function UnitPrice(c: Catalog, l: CartLine): real
    requires LineIn(c, l)
  {
    match l.variant
    case Some(v) => c.variants[v].price
    case None => c.products[l.product].price
  }

  function LineTotal(c: Catalog, l: CartLine): real
    requires LineIn(c, l)
  {
    UnitPrice(c, l) * l.quantity as real
  }

  function CartTotalItems(ls: seq<CartLine>): (n: nat)
    ensures ls == [] ==> n == 0
  {
    if ls == [] then 0 else CartTotalItems(ls[..|ls| - 1]) + ls[|ls| - 1].quantity
  }

  function CartTotalPrice(c: Catalog, ls: seq<CartLine>): (r: real)
    requires LinesIn(c, ls)
    ensures ls == [] ==> r == 0.0
  {
    if ls == [] then 0.0 else CartTotalPrice(c, ls[..|ls| - 1]) + LineTotal(c, ls[|ls| - 1])
  }

  /** A cart's item count adds up over any split of its lines. */
  lemma {:induction false} TotalItemsConcat(a: seq<CartLine>, b: seq<CartLine>)
    ensures CartTotalItems(a + b) == CartTotalItems(a) + CartTotalItems(b)
    decreases |b|
  {
    if b != [] {
      var b' := b[..|b| - 1];
      assert (a + b)[..|a + b| - 1] == a + b';
      TotalItemsConcat(a, b');
    } else {
      assert a + b == a;
    }
  }

  /** Setting one line's quantity to q moves the item count by q minus its old quantity. */
  lemma {:induction false} TotalItemsSetQuantity(ls: seq<CartLine>, k: nat, q: nat)
    requires k < |ls|
    ensures CartTotalItems(ls[k := ls[k].(quantity := q)]) == CartTotalItems(ls) - ls[k].quantity + q
    decreases |ls|
  {
    var ls' := ls[k := ls[k].(quantity := q)];
    var n := |ls| - 1;
    assert ls'[..n] == if k == n then ls[..n] else ls[..n][k := ls[k].(quantity := q)];
    if k < n {
      TotalItemsSetQuantity(ls[..n], k, q);
    }
  }

  /** Deleting line k takes its quantity off the item count. */
  lemma {:induction false} TotalItemsRemove(ls: seq<CartLine>, k: nat)
    requires k < |ls|
    ensures CartTotalItems(ls[..k] + ls[k + 1..]) == CartTotalItems(ls) - ls[k].quantity
    decreases |ls|
  {
    var n := |ls| - 1;
    var r := ls[..k] + ls[k + 1..];
    if k == n {
      assert r == ls[..n];
    } else {
      assert r[..|r| - 1] == ls[..n][..k] + ls[..n][k + 1..];
      assert r[|r| - 1] == ls[n];
      TotalItemsRemove(ls[..n], k);
    }
  }

  /** Appending a line adds its quantity to the item count. */
  lemma TotalItemsAppend(ls: seq<CartLine>, l: CartLine)
    ensures CartTotalItems(ls + [l]) == CartTotalItems(ls) + l.quantity
  {
    assert (ls + [l])[..|ls|] == ls;
  }

  /** The cart total follows the catalog: repricing the product of a
      variant-less line reprices the cart. */
  lemma CartPriceFollowsCatalog(c: Catalog, l: CartLine, price: real)
    requires LineIn(c, l) && l.variant.None?
    ensures var c' := c.(products := c.products[l.product := c.products[l.product].(price := price)]);
            LineIn(c', l) && CartTotalPrice(c', [l]) == price * l.quantity as real
  {
    assert [l][..0] == [];
  }

  /** Example from the test suite: two units at 999.99 cost 1999.98. */
  lemma TwoPhonesExample(c: Catalog, l: CartLine)
    requires LineIn(c, l) && l.variant.None? && l.quantity == 2
    requires c.products[l.product].price == 999.99
    ensures CartTotalItems([l]) == 2 && CartTotalPrice(c, [l]) == 1999.98
  {
    assert [l][..0] == [];
  }

  /** The cart is the requester's: the customer's own cart, or the cart
      keyed by the visitor's session (a visitor with no session key owns none). */
  predicate BelongsTo(cart: Cart, who: Requester) {
    match who
    case Customer(u) => cart.customer == Some(u)
    case Visitor(k) => k.Some? && cart.sessionKey == k.value
  }

  /** A cart made for a customer, whose session key column is empty, is never
      a visitor's. */
  lemma VisitorNeverOwnsCustomerCart(cart: Cart, k: Option<SessionKey>)
    requires cart.sessionKey == ""
    ensures !BelongsTo(cart, Visitor(k))
  {
  }

  // ---------------------------------------------------------------------
  // The (cart, product, variant) uniqueness constraint and row ids

  predicate DistinctLineKeys(ls: seq<CartLine>) {
    forall i, j :: 0 <= i < j < |ls| ==> ls[i].product != ls[j].product || ls[i].variant != ls[j].variant
  }

  predicate DistinctLineIds(ls: seq<CartLine>) {
    forall i, j :: 0 <= i < j < |ls| ==> ls[i].id != ls[j].id
  }

  // ---------------------------------------------------------------------
  // Order statuses (ORDER_STATUS_CHOICES) and Order.save's order number

  function StatusName(s: OrderStatus): string {
    match s
    case Pending => "pending"
    case Confirmed => "confirmed"
    case Processing => "processing"
    case Shipped => "shipped"
    case Delivered => "delivered"
    case Cancelled => "cancelled"
    case Refunded => "refunded"
  }

  /** Membership in dict(ORDER_STATUS_CHOICES): the status a string names, if any. */
  function ParseStatus(t: string): Option<OrderStatus> {
    if t == "pending" then Some(Pending)
    else if t == "confirmed" then Some(Confirmed)
    else if t == "processing" then Some(Processing)
    else if t == "shipped" then Some(Shipped)
    else if t == "delivered" then Some(Delivered)
    else if t == "cancelled" then Some(Cancelled)
    else if t == "refunded" then Some(Refunded)
    else None
  }

  /** The seven choice keys and the seven statuses correspond one to one. */
  lemma ParseStatusRoundTrip(s: OrderStatus, t: string)
    ensures ParseStatus(StatusName(s)) == Some(s)
    ensures ParseStatus(t) == Some(s) ==> StatusName(s) == t
  {
  }

  /** The statuses from which an order can no longer be cancelled. */
  predicate IsTerminal(s: OrderStatus) {
    s == Delivered || s == Cancelled || s == Refunded
  }

  predicate IsOrderNumberChar(ch: char) {
    'A' <= ch <= 'Z' || '0' <= ch <= '9'
  }

  /** The shape of random.choices(ascii_uppercase + digits, k=10). */
  predicate IsOrderNumber(s: string) {
    |s| == 10 && forall i :: 0 <= i < |s| ==> IsOrderNumberChar(s[i])
  }

  /** Order.save: draw a number only when none is set; `draw` stands for
      what the random generator would return. */
  function AssignOrderNumber(current: string, draw: string): (r: string)
    ensures current != "" ==> r == current
    ensures current == "" && IsOrderNumber(draw) ==> IsOrderNumber(r)
    ensures r == current || r == draw
  {
    if current == "" then draw else current
  }

  /** Saving twice never changes the number the first save assigned. */
  lemma OrderNumberStable(current: string, draw1: string, draw2: string)
    requires IsOrderNumber(draw1)
    ensures AssignOrderNumber(AssignOrderNumber(current, draw1), draw2) == AssignOrderNumber(current, draw1)
  {
  }
}
