/** The cart, checkout and cancellation endpoints of product/views.py
    (CartViewSet, OrderViewSet.create / cancel) over an in-memory store, with
    Order.save and its notification signals. The endpoints change the store
    in place, as the source's ORM calls do; each method is proved against the
    value-level functions defined first. */
module Views {
  import opened Basics
  import opened Models
  import opened Inventory
  import opened Pricing
  import opened Serializers
  import opened Signals

  // ---------------------------------------------------------------------
  // Cart lines: lookup by (product, variant) and by id

  predicate HasKey(l: CartLine, p: ProductId, v: Option<VariantId>) {
    l.product == p && l.variant == v
  }

  /** The index of the line for (product, variant), if any. */
  function FindLine(ls: seq<CartLine>, p: ProductId, v: Option<VariantId>): (r: Option<nat>)
    ensures r.Some? ==> r.value < |ls| && HasKey(ls[r.value], p, v)
    ensures r.None? ==> forall k :: 0 <= k < |ls| ==> !HasKey(ls[k], p, v)
  {
    if ls == [] then None
    else if HasKey(ls[0], p, v) then Some(0)
    else match FindLine(ls[1..], p, v)
      case None => None
      case Some(k) => Some(k + 1)
  }

  /** The index of the line with this id, if any. */
  function FindItem(ls: seq<CartLine>, id: ItemId): (r: Option<nat>)
    ensures r.Some? ==> r.value < |ls| && ls[r.value].id == id
    ensures r.None? ==> forall k :: 0 <= k < |ls| ==> ls[k].id != id
  {
    if ls == [] then None
    else if ls[0].id == id then Some(0)
    else match FindItem(ls[1..], id)
      case None => None
      case Some(k) => Some(k + 1)
  }

  /** Total quantity the lines hold of (product, variant). */
  function KeyQty(ls: seq<CartLine>, p: ProductId, v: Option<VariantId>): nat {
    if ls == [] then 0
    else KeyQty(ls[..|ls| - 1], p, v) + (if HasKey(ls[|ls| - 1], p, v) then ls[|ls| - 1].quantity else 0)
  }

  lemma {:induction false} KeyQtyAbsent(ls: seq<CartLine>, p: ProductId, v: Option<VariantId>)
    requires forall k :: 0 <= k < |ls| ==> !HasKey(ls[k], p, v)
    ensures KeyQty(ls, p, v) == 0
  {
    if ls != [] {
      KeyQtyAbsent(ls[..|ls| - 1], p, v);
    }
  }

  /** With one line per key, a key's quantity is its line's quantity. */
  lemma {:induction false} KeyQtyOfLine(ls: seq<CartLine>, k: nat)
    requires k < |ls| && DistinctLineKeys(ls)
    ensures KeyQty(ls, ls[k].product, ls[k].variant) == ls[k].quantity
  {
    var n := |ls| - 1;
    var p, v := ls[k].product, ls[k].variant;
    if k == n {
      KeyQtyAbsent(ls[..n], p, v);
    } else {
      KeyQtyOfLine(ls[..n], k);
    }
  }

  lemma {:induction false} KeyQtySetQuantity(ls: seq<CartLine>, k: nat, q: nat, p: ProductId, v: Option<VariantId>)
    requires k < |ls|
    ensures KeyQty(ls[k := ls[k].(quantity := q)], p, v)
            == KeyQty(ls, p, v) - (if HasKey(ls[k], p, v) then ls[k].quantity - q else 0)
    decreases |ls|
  {
    var ls' := ls[k := ls[k].(quantity := q)];
    var n := |ls| - 1;
    assert ls'[..n] == if k == n then ls[..n] else ls[..n][k := ls[k].(quantity := q)];
    if k < n {
      KeyQtySetQuantity(ls[..n], k, q, p, v);
    }
  }

  /** add_item's get_or_create on (cart, product, variant): bump the existing
      line's quantity, or append a line under the next id. */
  function MergeLine(ls: seq<CartLine>, p: ProductId, v: Option<VariantId>, q: nat, newId: ItemId): seq<CartLine> {
    match FindLine(ls, p, v)
    case Some(k) => ls[k := ls[k].(quantity := ls[k].quantity + q)]
    case None => ls + [CartLine(newId, p, v, q)]
  }

  /** Merge-on-add, key by key: the added key gains q units, every other key
      keeps its quantity. */
  lemma MergeLineQuantities(ls: seq<CartLine>, p: ProductId, v: Option<VariantId>, q: nat, newId: ItemId,
                            p': ProductId, v': Option<VariantId>)
    ensures KeyQty(MergeLine(ls, p, v, q, newId), p', v') == KeyQty(ls, p', v') + (if p' == p && v' == v then q else 0)
  {
    match FindLine(ls, p, v)
    case Some(k) =>
      KeyQtySetQuantity(ls, k, ls[k].quantity + q, p', v');
    case None =>
      var ls' := ls + [CartLine(newId, p, v, q)];
      assert ls'[..|ls|] == ls;
  }

  /** Merging adds exactly q units to the cart's item count. */
  lemma MergeLineTotalItems(ls: seq<CartLine>, p: ProductId, v: Option<VariantId>, q: nat, newId: ItemId)
    ensures CartTotalItems(MergeLine(ls, p, v, q, newId)) == CartTotalItems(ls) + q
  {
    match FindLine(ls, p, v)
    case Some(k) =>
      TotalItemsSetQuantity(ls, k, ls[k].quantity + q);
    case None =>
      TotalItemsAppend(ls, CartLine(newId, p, v, q));
  }

  /** What every stored cart satisfies: its lines name existing rows, one line
      per (product, variant) (the unique_together constraint), distinct ids
      below the next id, and positive quantities. */
  predicate CartOk(c: Catalog, ls: seq<CartLine>, nextItem: ItemId) {
    && LinesIn(c, ls)
    && DistinctLineKeys(ls)
    && DistinctLineIds(ls)
    && (forall k :: 0 <= k < |ls| ==> ls[k].id < nextItem && ls[k].quantity > 0)
  }

  lemma MergeLineOk(c: Catalog, ls: seq<CartLine>, p: ProductId, v: Option<VariantId>, q: nat, next: ItemId)
    requires CartOk(c, ls, next) && q > 0 && LineIn(c, CartLine(next, p, v, q))
    ensures CartOk(c, MergeLine(ls, p, v, q, next), if FindLine(ls, p, v).Some? then next else next + 1)
  {
    var ls' := MergeLine(ls, p, v, q, next);
    match FindLine(ls, p, v)
    case Some(k) =>
      assert forall j :: 0 <= j < |ls| ==> ls'[j].id == ls[j].id && HasKey(ls'[j], ls[j].product, ls[j].variant);
    case None =>
      assert forall j :: 0 <= j < |ls| ==> ls'[j] == ls[j];
  }

  lemma SetQuantityOk(c: Catalog, ls: seq<CartLine>, k: nat, q: nat, next: ItemId)
    requires CartOk(c, ls, next) && k < |ls| && q > 0
    ensures CartOk(c, ls[k := ls[k].(quantity := q)], next)
  {
    var ls' := ls[k := ls[k].(quantity := q)];
    assert forall j :: 0 <= j < |ls| ==> ls'[j].id == ls[j].id && HasKey(ls'[j], ls[j].product, ls[j].variant);
  }

  lemma RemoveLineOk(c: Catalog, ls: seq<CartLine>, k: nat, next: ItemId)
    requires CartOk(c, ls, next) && k < |ls|
    ensures CartOk(c, ls[..k] + ls[k + 1..], next)
  {
    var r := ls[..k] + ls[k + 1..];
    assert forall j :: 0 <= j < |r| ==> r[j] == ls[if j < k then j else j + 1];
  }

  /** Stock changes never touch which rows exist, so stored carts stay valid. */
  lemma CartOkSameKeys(c: Catalog, c': Catalog, ls: seq<CartLine>, next: ItemId)
    requires CartOk(c, ls, next)
    requires c'.products.Keys == c.products.Keys && c'.variants.Keys == c.variants.Keys
    ensures CartOk(c', ls, next)
  {
    assert forall k :: 0 <= k < |ls| ==> LineIn(c', ls[k]) by {
      forall k | 0 <= k < |ls| ensures LineIn(c', ls[k]) {
        assert LineIn(c, ls[k]);
      }
    }
  }

  predicate CartsOk(c: Catalog, carts: map<CartId, Cart>, nextCart: CartId, nextItem: ItemId) {
    forall id :: id in carts ==> id < nextCart && CartOk(c, carts[id].lines, nextItem)
  }

  lemma CartsOkSameKeys(c: Catalog, c': Catalog, carts: map<CartId, Cart>, nextCart: CartId, nextItem: ItemId)
    requires CartsOk(c, carts, nextCart, nextItem)
    requires c'.products.Keys == c.products.Keys && c'.variants.Keys == c.variants.Keys
    ensures CartsOk(c', carts, nextCart, nextItem)
  {
    forall id | id in carts
      ensures CartOk(c', carts[id].lines, nextItem)
    {
      CartOkSameKeys(c, c', carts[id].lines, nextItem);
    }
  }

  predicate OrdersOk(orders: map<OrderId, Order>, nextOrder: OrderId) {
    forall id :: id in orders ==> id < nextOrder && orders[id].orderNumber != ""
  }

  /** Replacing one stored cart's lines by valid lines keeps every cart valid. */
  lemma CartsOkUpdate(c: Catalog, carts: map<CartId, Cart>, nextCart: CartId, nextItem: ItemId, nextItem': ItemId,
                      id: CartId, ls: seq<CartLine>)
    requires CartsOk(c, carts, nextCart, nextItem) && id in carts
    requires CartOk(c, ls, nextItem') && nextItem <= nextItem'
    ensures CartsOk(c, carts[id := carts[id].(lines := ls)], nextCart, nextItem')
  {
  }

  // ---------------------------------------------------------------------
  // get_or_create_cart

  /** A visitor without a session key gets the key a new session creates. */
  function Resolve(who: Requester, newKey: SessionKey): (owner: Requester)
    ensures owner.Visitor? ==> owner.sessionKey.Some?
    ensures who != Visitor(None) ==> owner == who
  {
    if who == Visitor(None) then Visitor(Some(newKey)) else who
  }

  function NewCart(owner: Requester): (cart: Cart)
    ensures cart.lines == []
    ensures owner != Visitor(None) ==> BelongsTo(cart, owner)
  {
    match owner
    case Customer(u) => Cart(Some(u), "", [])
    case Visitor(k) => Cart(None, if k.Some? then k.value else "", [])
  }

  predicate HasCartOf(carts: map<CartId, Cart>, owner: Requester) {
    exists id :: id in carts && BelongsTo(carts[id], owner)
  }

  /** The cart an endpoint acts on is the owner's existing cart, or a new one
      under the next id when the owner has none. */
  predicate PickedCart(oldCarts: map<CartId, Cart>, oldNext: CartId, id: CartId, owner: Requester) {
    && (id in oldCarts ==> BelongsTo(oldCarts[id], owner))
    && (id !in oldCarts ==> id == oldNext && !HasCartOf(oldCarts, owner))
  }

  /** The picked cart as it was before the endpoint changed its lines. */
  function Prior(oldCarts: map<CartId, Cart>, id: CartId, owner: Requester): Cart {
    if id in oldCarts then oldCarts[id] else NewCart(owner)
  }

  // ---------------------------------------------------------------------
  // Checkout: order items, totals, coupon use

  /** The order item written for one cart line: quantity, the live unit and
      line prices, and the names and SKU as they are now. */
  function Snapshot(c: Catalog, l: CartLine): OrderItem
    requires LineIn(c, l)
  {
    OrderItem(l.product, l.variant, l.quantity, UnitPrice(c, l), LineTotal(c, l),
              c.products[l.product].name, c.products[l.product].sku,
              if l.variant.Some? then c.variants[l.variant.value].name else "")
  }

  function Snapshots(c: Catalog, ls: seq<CartLine>): (items: seq<OrderItem>)
    requires LinesIn(c, ls)
    ensures |items| == |ls|
  {
    if ls == [] then [] else Snapshots(c, ls[..|ls| - 1]) + [Snapshot(c, ls[|ls| - 1])]
  }

  function SumItemTotals(items: seq<OrderItem>): real {
    if items == [] then 0.0 else SumItemTotals(items[..|items| - 1]) + items[|items| - 1].totalPrice
  }

  /** The items copy the lines one for one, add up to the cart's total, and
      move exactly the stock the lines move. */
  lemma {:induction false} SnapshotsFaithful(c: Catalog, ls: seq<CartLine>)
    requires LinesIn(c, ls)
    ensures forall k :: 0 <= k < |ls| ==> Snapshots(c, ls)[k] == Snapshot(c, ls[k])
    ensures SumItemTotals(Snapshots(c, ls)) == CartTotalPrice(c, ls)
    ensures ItemMoves(Snapshots(c, ls)) == LineMoves(ls)
  {
    if ls != [] {
      var n := |ls| - 1;
      SnapshotsFaithful(c, ls[..n]);
      assert Snapshots(c, ls)[..n] == Snapshots(c, ls[..n]);
    }
  }

  lemma SnapshotsPrefix(c: Catalog, ls: seq<CartLine>, i: nat)
    requires LinesIn(c, ls) && i < |ls|
    ensures Snapshots(c, ls[..i + 1]) == Snapshots(c, ls[..i]) + [Snapshot(c, ls[i])]
  {
    assert ls[..i + 1][..i] == ls[..i];
  }

  /** Stock moves change no price, name or SKU: a line's order item is the
      same before and after any moves. */
  lemma ShiftKeepsSnapshot(c: Catalog, ms: seq<Move>, d: Direction, l: CartLine)
    requires LineIn(c, l)
    ensures LineIn(Shift(c, ms, d), l) && Snapshot(Shift(c, ms, d), l) == Snapshot(c, l)
  {
    ShiftProductAt(c, ms, d, l.product);
    if l.variant.Some? {
      ShiftVariantAt(c, ms, d, l.variant.value);
    }
  }

  /** `if coupon_code:` -- the coupon checkout applies, if any. */
  function CheckoutCoupon(coupons: map<string, Coupon>, code: Option<string>): Option<Coupon> {
    if code.Some? && code.value != "" && code.value in coupons then Some(coupons[code.value]) else None
  }

  /** The coupon table after checkout: the applied coupon's use count goes up by one. */
  function UseCoupon(coupons: map<string, Coupon>, code: Option<string>): map<string, Coupon> {
    if CheckoutCoupon(coupons, code).Some?
    then coupons[code.value := coupons[code.value].(usedCount := coupons[code.value].usedCount + 1)]
    else coupons
  }

  /** Exactly the applied coupon's count moves, by exactly one; no other
      coupon and no other field changes. */
  lemma UseCouponCounts(coupons: map<string, Coupon>, code: Option<string>, k: string)
    ensures UseCoupon(coupons, code).Keys == coupons.Keys
    ensures k in coupons ==>
              UseCoupon(coupons, code)[k]
              == if CheckoutCoupon(coupons, code).Some? && k == code.value
                 then coupons[k].(usedCount := coupons[k].usedCount + 1) else coupons[k]
  {
  }

  /** The order checkout writes for a cart's lines, before the order number
      is assigned on save. */
  function PlacedOrder(c: Catalog, user: UserId, ls: seq<CartLine>, coupon: Option<Coupon>,
                       billing: string, shipping: string, notes: string): (o: Order)
    requires LinesIn(c, ls)
    ensures o.orderNumber == "" && o.items == Snapshots(c, ls)
    ensures o.customer == user && o.status == Pending
  {
    var t := CheckoutTotals(CartTotalPrice(c, ls), coupon);
    Order("", user, Pending, PaymentPending, t.subtotal, t.tax, t.shipping, t.discount, t.total,
          billing, shipping, notes, Snapshots(c, ls))
  }

  /** A placed order is pending and unpaid, belongs to the customer, and its
      totals obey the checkout identities: a 10% tax, shipping under 100, the
      coupon's capped discount, and no floor on the total. */
  lemma PlacedOrderTotals(c: Catalog, user: UserId, ls: seq<CartLine>, coupon: Option<Coupon>,
                          billing: string, shipping: string, notes: string)
    requires LinesIn(c, ls)
    ensures var o := PlacedOrder(c, user, ls, coupon, billing, shipping, notes);
            && o.status == Pending && o.paymentStatus == PaymentPending && o.customer == user
            && o.subtotal == CartTotalPrice(c, ls)
            && o.taxAmount == o.subtotal * 0.10
            && o.shippingAmount == (if o.subtotal < 100.0 then 10.0 else 0.0)
            && o.discountAmount == (if coupon.Some? then CouponDiscount(coupon.value, o.subtotal) else 0.0)
            && o.totalAmount == o.subtotal + o.taxAmount + o.shippingAmount - o.discountAmount
  {
  }

  /** A placed order has one item per cart line, copying product, variant,
      quantity and the live prices, and its item totals add up to its subtotal. */
  lemma PlacedOrderItems(c: Catalog, user: UserId, ls: seq<CartLine>, coupon: Option<Coupon>,
                         billing: string, shipping: string, notes: string)
    requires LinesIn(c, ls)
    ensures var o := PlacedOrder(c, user, ls, coupon, billing, shipping, notes);
            && |o.items| == |ls|
            && (forall k :: 0 <= k < |ls| ==>
                  && o.items[k].product == ls[k].product && o.items[k].variant == ls[k].variant
                  && o.items[k].quantity == ls[k].quantity
                  && o.items[k].unitPrice == UnitPrice(c, ls[k])
                  && o.items[k].totalPrice == o.items[k].unitPrice * o.items[k].quantity as real)
            && SumItemTotals(o.items) == o.subtotal
  {
    SnapshotsFaithful(c, ls);
    var items := Snapshots(c, ls);
    forall k | 0 <= k < |ls|
      ensures items[k].totalPrice == items[k].unitPrice * items[k].quantity as real
    {
      assert items[k] == Snapshot(c, ls[k]);
    }
  }

  /** Cancelling restores exactly the stock that checkout deducted. */
  lemma CreateThenCancelRestoresStock(c: Catalog, ls: seq<CartLine>)
    requires LinesIn(c, ls)
    ensures Shift(Shift(c, LineMoves(ls), Deduct), ItemMoves(Snapshots(c, ls)), Restore) == c
  {
    SnapshotsFaithful(c, ls);
    ShiftRoundTrip(c, LineMoves(ls));
  }

  datatype ItemUpdate = LineRemoved | LineUpdated(line: CartLine)

  datatype CartOpError = ItemNotFound        // "Cart item not found"

  datatype CancelError = OrderNotFound | CannotCancel   // 404 / "Order cannot be cancelled"

  // ---------------------------------------------------------------------
  // The store

  class Shop {
    var catalog: Catalog
    var coupons: map<string, Coupon>
    var carts: map<CartId, Cart>
    var orders: map<OrderId, Order>
    var nextCartId: CartId
    var nextItemId: ItemId
    var nextOrderId: OrderId

    predicate Valid()
      reads this
    {
      CartsOk(catalog, carts, nextCartId, nextItemId) && OrdersOk(orders, nextOrderId)
    }

    constructor(c: Catalog, cs: map<string, Coupon>)
      ensures Valid()
      ensures catalog == c && coupons == cs && carts == map[] && orders == map[]
    {
      catalog := c;
      coupons := cs;
      carts := map[];
      orders := map[];
      nextCartId := 0;
      nextItemId := 0;
      nextOrderId := 0;
    }

    /** One line's stock update, as the checkout and cancel loops write it. */
    method ApplyMove(m: Move, d: Direction)
      modifies this
      ensures catalog == Step(old(catalog), m, d)
      ensures catalog.products.Keys == old(catalog).products.Keys && catalog.variants.Keys == old(catalog).variants.Keys
      ensures coupons == old(coupons) && carts == old(carts) && orders == old(orders)
      ensures nextCartId == old(nextCartId) && nextItemId == old(nextItemId) && nextOrderId == old(nextOrderId)
    {
      match m.variant {
        case Some(v) =>
          if v in catalog.variants {
            var row := catalog.variants[v];
            catalog := catalog.(variants := catalog.variants[v := row.(stockQuantity := row.stockQuantity + Delta(d, m.quantity))]);
          }
        case None =>
          if m.product in catalog.products && catalog.products[m.product].trackInventory {
            var row := catalog.products[m.product];
            catalog := catalog.(products := catalog.products[m.product := row.(stockQuantity := row.stockQuantity + Delta(d, m.quantity))]);
          }
      }
    }

    /** Order.save with its pre_save and post_save receivers: read the stored
        status, assign an order number if none is set (`draw` is what the
        random generator returns), write the row, and return the event the
        post_save receiver sends. */
    method SaveOrder(id: OrderId, o: Order, draw: string) returns (e: Option<StatusEvent>)
      requires Valid()
      requires id < nextOrderId
      requires o.orderNumber != "" || IsOrderNumber(draw)
      modifies this
      ensures Valid()
      ensures orders == old(orders)[id := o.(orderNumber := AssignOrderNumber(o.orderNumber, draw))]
      ensures e == OnOrderSaved(id !in old(orders), StoredStatus(old(orders), Some(id)), id, orders[id])
      ensures catalog == old(catalog) && coupons == old(coupons) && carts == old(carts)
      ensures nextCartId == old(nextCartId) && nextItemId == old(nextItemId) && nextOrderId == old(nextOrderId)
    {
      var prior := StoredStatus(orders, Some(id));
      var created := id !in orders;
      orders := orders[id := o.(orderNumber := AssignOrderNumber(o.orderNumber, draw))];
      e := OnOrderSaved(created, prior, id, orders[id]);
    }

    /** CartViewSet.get_or_create_cart. */
    method GetOrCreateCart(who: Requester, newKey: SessionKey) returns (id: CartId)
      requires Valid()
      modifies this
      ensures Valid()
      ensures PickedCart(old(carts), old(nextCartId), id, Resolve(who, newKey))
      ensures carts == old(carts)[id := Prior(old(carts), id, Resolve(who, newKey))]
      ensures nextCartId == if id in old(carts) then old(nextCartId) else old(nextCartId) + 1
      ensures catalog == old(catalog) && coupons == old(coupons) && orders == old(orders)
      ensures nextItemId == old(nextItemId) && nextOrderId == old(nextOrderId)
    {
      var owner := Resolve(who, newKey);
      if HasCartOf(carts, owner) {
        id :| id in carts && BelongsTo(carts[id], owner);
      } else {
        id := nextCartId;
        carts := carts[id := NewCart(owner)];
        nextCartId := nextCartId + 1;
      }
    }

    /** add_item's get_or_create on (cart, product, variant) for a validated
        request: the existing line's quantity goes up by q, or a line with
        quantity q is created under the next id. */
    method MergeIntoCart(id: CartId, p: ProductId, v: Option<VariantId>, q: nat) returns (line: CartLine)
      requires Valid() && id in carts && q > 0 && LineIn(catalog, CartLine(nextItemId, p, v, q))
      modifies this
      ensures Valid()
      ensures carts == old(carts)[id := old(carts)[id].(lines := MergeLine(old(carts)[id].lines, p, v, q, old(nextItemId)))]
      ensures line in carts[id].lines && HasKey(line, p, v) && line.quantity == KeyQty(old(carts)[id].lines, p, v) + q
      ensures nextItemId == if FindLine(old(carts)[id].lines, p, v).Some? then old(nextItemId) else old(nextItemId) + 1
      ensures catalog == old(catalog) && coupons == old(coupons) && orders == old(orders)
      ensures nextCartId == old(nextCartId) && nextOrderId == old(nextOrderId)
    {
      var ls := carts[id].lines;
      assert CartOk(catalog, ls, nextItemId);
      var merged := MergeLine(ls, p, v, q, nextItemId);
      MergeLineOk(catalog, ls, p, v, q, nextItemId);
      var next := nextItemId;
      match FindLine(ls, p, v) {
        case Some(k) =>
          line := merged[k];
          KeyQtyOfLine(ls, k);
        case None =>
          line := merged[|ls|];
          KeyQtyAbsent(ls, p, v);
          next := nextItemId + 1;
      }
      CartsOkUpdate(catalog, carts, nextCartId, nextItemId, next, id, merged);
      carts := carts[id := carts[id].(lines := merged)];
      nextItemId := next;
    }

    /** CartViewSet.add_item: pick the cart, validate the request, merge it in. */
    method AddItem(who: Requester, newKey: SessionKey, req: AddItemRequest) returns (id: CartId, r: Result<CartLine, CartItemError>)
      requires Valid()
      modifies this
      ensures Valid()
      ensures PickedCart(old(carts), old(nextCartId), id, Resolve(who, newKey))
      ensures nextCartId == if id in old(carts) then old(nextCartId) else old(nextCartId) + 1
      ensures r.Err? <==> ValidateCartItem(catalog, req).Err?
      ensures r.Err? ==> r.error == ValidateCartItem(catalog, req).error
                         && carts == old(carts)[id := Prior(old(carts), id, Resolve(who, newKey))]
                         && nextItemId == old(nextItemId)
      ensures r.Ok? ==>
                var before := Prior(old(carts), id, Resolve(who, newKey));
                && carts == old(carts)[id := before.(lines := MergeLine(before.lines, req.productId, req.variantId, req.quantity as nat, old(nextItemId)))]
                && r.value in carts[id].lines && HasKey(r.value, req.productId, req.variantId)
                && r.value.quantity == KeyQty(before.lines, req.productId, req.variantId) + req.quantity
                && nextItemId == if FindLine(before.lines, req.productId, req.variantId).Some?
                                 then old(nextItemId) else old(nextItemId) + 1
      ensures catalog == old(catalog) && coupons == old(coupons) && orders == old(orders) && nextOrderId == old(nextOrderId)
    {
      id := GetOrCreateCart(who, newKey);
      var checked := ValidateCartItem(catalog, req);
      if checked.Err? {
        return id, Err(checked.error);
      }
      var line := MergeIntoCart(id, req.productId, req.variantId, req.quantity as nat);
      r := Ok(line);
    }

    /** The stock check never looks at the cart: a customer without a cart
        who adds a product's whole remaining stock twice has both adds
        accepted, and ends with one line holding twice that stock. The stock
        is taken small enough for the doubled line to fit the quantity
        column. */
    method AddFullStockTwice(u: UserId, p: ProductId, newKey: SessionKey) returns (id: CartId, line: CartLine)
      requires Valid() && !HasCartOf(carts, Customer(u))
      requires ActiveProduct(catalog, p) && 0 < catalog.products[p].stockQuantity
      requires 2 * catalog.products[p].stockQuantity <= MaxQuantity
      modifies this
      ensures Valid()
      ensures id in carts && BelongsTo(carts[id], Customer(u))
      ensures line in carts[id].lines && HasKey(line, p, None)
      ensures line.quantity == 2 * catalog.products[p].stockQuantity
      ensures catalog == old(catalog)
    {
      var stock := catalog.products[p].stockQuantity;
      var req := AddItemRequest(p, None, stock);
      var carts0, next0 := carts, nextItemId;
      var id1, r1 := AddItem(Customer(u), newKey, req);
      assert id1 !in carts0;
      var lines1 := MergeLine([], p, None, stock, next0);
      assert carts[id1].lines == lines1;
      MergeLineQuantities([], p, None, stock, next0, p, None);
      assert KeyQty([], p, None) == 0;
      var carts1 := carts;
      var id2, r2 := AddItem(Customer(u), newKey, req);
      assert HasCartOf(carts1, Customer(u)) by { assert id1 in carts1 && BelongsTo(carts1[id1], Customer(u)); }
      assert id2 == id1;
      id, line := id2, r2.value;
    }

    /** CartViewSet.update_item: a non-positive quantity deletes the line,
        any other replaces its quantity. */
    method UpdateItem(who: Requester, newKey: SessionKey, itemId: ItemId, quantity: int)
      returns (id: CartId, r: Result<ItemUpdate, CartOpError>)
      requires Valid()
      modifies this
      ensures Valid()
      ensures PickedCart(old(carts), old(nextCartId), id, Resolve(who, newKey))
      ensures nextCartId == if id in old(carts) then old(nextCartId) else old(nextCartId) + 1
      ensures var before := Prior(old(carts), id, Resolve(who, newKey));
              match FindItem(before.lines, itemId)
              case None =>
                r == Err(ItemNotFound) && carts == old(carts)[id := before]
              case Some(k) =>
                if quantity <= 0 then
                  r == Ok(LineRemoved)
                  && carts == old(carts)[id := before.(lines := before.lines[..k] + before.lines[k + 1..])]
                else
                  r == Ok(LineUpdated(before.lines[k].(quantity := quantity as nat)))
                  && carts == old(carts)[id := before.(lines := before.lines[k := before.lines[k].(quantity := quantity as nat)])]
      ensures catalog == old(catalog) && coupons == old(coupons) && orders == old(orders)
      ensures nextItemId == old(nextItemId) && nextOrderId == old(nextOrderId)
    {
      id := GetOrCreateCart(who, newKey);
      var ls := carts[id].lines;
      assert CartOk(catalog, ls, nextItemId);
      match FindItem(ls, itemId) {
        case None =>
          r := Err(ItemNotFound);
        case Some(k) =>
          if quantity <= 0 {
            RemoveLineOk(catalog, ls, k, nextItemId);
            CartsOkUpdate(catalog, carts, nextCartId, nextItemId, nextItemId, id, ls[..k] + ls[k + 1..]);
            carts := carts[id := carts[id].(lines := ls[..k] + ls[k + 1..])];
            r := Ok(LineRemoved);
          } else {
            var line := ls[k].(quantity := quantity as nat);
            SetQuantityOk(catalog, ls, k, quantity as nat, nextItemId);
            CartsOkUpdate(catalog, carts, nextCartId, nextItemId, nextItemId, id, ls[k := line]);
            carts := carts[id := carts[id].(lines := ls[k := line])];
            r := Ok(LineUpdated(line));
          }
      }
    }

    /** CartViewSet.remove_item. */
    method RemoveItem(who: Requester, newKey: SessionKey, itemId: ItemId) returns (id: CartId, r: Result<ItemUpdate, CartOpError>)
      requires Valid()
      modifies this
      ensures Valid()
      ensures PickedCart(old(carts), old(nextCartId), id, Resolve(who, newKey))
      ensures nextCartId == if id in old(carts) then old(nextCartId) else old(nextCartId) + 1
      ensures var before := Prior(old(carts), id, Resolve(who, newKey));
              match FindItem(before.lines, itemId)
              case None =>
                r == Err(ItemNotFound) && carts == old(carts)[id := before]
              case Some(k) =>
                r == Ok(LineRemoved)
                && carts == old(carts)[id := before.(lines := before.lines[..k] + before.lines[k + 1..])]
      ensures catalog == old(catalog) && coupons == old(coupons) && orders == old(orders)
      ensures nextItemId == old(nextItemId) && nextOrderId == old(nextOrderId)
    {
      id := GetOrCreateCart(who, newKey);
      var ls := carts[id].lines;
      assert CartOk(catalog, ls, nextItemId);
      match FindItem(ls, itemId) {
        case None =>
          r := Err(ItemNotFound);
        case Some(k) =>
          RemoveLineOk(catalog, ls, k, nextItemId);
          CartsOkUpdate(catalog, carts, nextCartId, nextItemId, nextItemId, id, ls[..k] + ls[k + 1..]);
          carts := carts[id := carts[id].(lines := ls[..k] + ls[k + 1..])];
          r := Ok(LineRemoved);
      }
    }

    /** CartViewSet.clear. */
    method Clear(who: Requester, newKey: SessionKey) returns (id: CartId)
      requires Valid()
      modifies this
      ensures Valid()
      ensures PickedCart(old(carts), old(nextCartId), id, Resolve(who, newKey))
      ensures nextCartId == if id in old(carts) then old(nextCartId) else old(nextCartId) + 1
      ensures carts == old(carts)[id := Prior(old(carts), id, Resolve(who, newKey)).(lines := [])]
      ensures CartTotalItems(carts[id].lines) == 0
      ensures catalog == old(catalog) && coupons == old(coupons) && orders == old(orders)
      ensures nextItemId == old(nextItemId) && nextOrderId == old(nextOrderId)
    {
      id := GetOrCreateCart(who, newKey);
      CartsOkUpdate(catalog, carts, nextCartId, nextItemId, nextItemId, id, []);
      carts := carts[id := carts[id].(lines := [])];
    }

    /** The item loop of OrderViewSet.create: for each cart line in turn,
        write its order item and deduct its stock. */
    method WriteOrderItems(id: OrderId, lines: seq<CartLine>)
      requires id in orders && orders[id].items == [] && LinesIn(catalog, lines)
      modifies this
      ensures catalog == Shift(old(catalog), LineMoves(lines), Deduct)
      ensures orders == old(orders)[id := old(orders)[id].(items := Snapshots(old(catalog), lines))]
      ensures coupons == old(coupons) && carts == old(carts)
      ensures nextCartId == old(nextCartId) && nextItemId == old(nextItemId) && nextOrderId == old(nextOrderId)
    {
      var c0 := catalog;
      var o := orders[id];
      var i := 0;
      while i < |lines|
        invariant 0 <= i <= |lines|
        invariant catalog == Shift(c0, LineMoves(lines[..i]), Deduct)
        invariant orders == old(orders)[id := o.(items := Snapshots(c0, lines[..i]))]
        invariant coupons == old(coupons) && carts == old(carts)
        invariant nextCartId == old(nextCartId) && nextItemId == old(nextItemId) && nextOrderId == old(nextOrderId)
      {
        var l := lines[i];
        ShiftKeepsSnapshot(c0, LineMoves(lines[..i]), Deduct, l);
        orders := orders[id := orders[id].(items := orders[id].items + [Snapshot(catalog, l)])];
        ApplyMove(LineMove(l), Deduct);
        LineMovesPrefix(lines, i);
        SnapshotsPrefix(c0, lines, i);
        assert LineMoves(lines[..i + 1])[..i] == LineMoves(lines[..i]);
        i := i + 1;
      }
      assert lines[..i] == lines;
    }

    /** Checkout's use of the coupon: `used_count += 1` and save. */
    method RedeemCoupon(code: Option<string>)
      modifies this
      ensures coupons == UseCoupon(old(coupons), code)
      ensures catalog == old(catalog) && carts == old(carts) && orders == old(orders)
      ensures nextCartId == old(nextCartId) && nextItemId == old(nextItemId) && nextOrderId == old(nextOrderId)
    {
      var coupon := CheckoutCoupon(coupons, code);
      if coupon.Some? {
        coupons := coupons[code.value := coupon.value.(usedCount := coupon.value.usedCount + 1)];
      }
    }

    /** Save a new order's row, then write its items while deducting stock. */
    method RecordOrder(id: OrderId, o: Order, lines: seq<CartLine>, draw: string)
      requires Valid() && id < nextOrderId && id !in orders && IsOrderNumber(draw)
      requires LinesIn(catalog, lines) && o.orderNumber == "" && o.items == Snapshots(catalog, lines)
      modifies this
      ensures Valid()
      ensures orders == old(orders)[id := o.(orderNumber := draw)]
      ensures catalog == Shift(old(catalog), LineMoves(lines), Deduct)
      ensures coupons == old(coupons) && carts == old(carts)
      ensures nextCartId == old(nextCartId) && nextItemId == old(nextItemId) && nextOrderId == old(nextOrderId)
    {
      var c0 := catalog;
      var event := SaveOrder(id, o.(items := []), draw);
      assert orders == old(orders)[id := o.(items := [], orderNumber := draw)];
      WriteOrderItems(id, lines);
      assert o.(items := [], orderNumber := draw).(items := Snapshots(c0, lines)) == o.(orderNumber := draw);
      CartsOkSameKeys(c0, catalog, carts, nextCartId, nextItemId);
    }

    /** The body of OrderViewSet.create once the request is valid: price the
        cart, use the coupon, save the order, write its items while deducting
        stock, and empty the cart. */
    method PlaceOrder(user: UserId, cartId: CartId, couponCode: Option<string>,
                      billing: string, shipping: string, notes: string, draw: string)
      returns (id: OrderId)
      requires Valid() && cartId in carts && IsOrderNumber(draw)
      modifies this
      ensures Valid()
      ensures var lines := old(carts)[cartId].lines;
              && id == old(nextOrderId) && id !in old(orders)
              && orders == old(orders)[id := PlacedOrder(old(catalog), user, lines, CheckoutCoupon(old(coupons), couponCode),
                                                         billing, shipping, notes).(orderNumber := draw)]
              && catalog == Shift(old(catalog), LineMoves(lines), Deduct)
              && coupons == UseCoupon(old(coupons), couponCode)
              && carts == old(carts)[cartId := old(carts)[cartId].(lines := [])]
      ensures nextOrderId == old(nextOrderId) + 1 && nextCartId == old(nextCartId) && nextItemId == old(nextItemId)
    {
      var lines := carts[cartId].lines;
      assert CartOk(catalog, lines, nextItemId);
      var placed := PlacedOrder(catalog, user, lines, CheckoutCoupon(coupons, couponCode), billing, shipping, notes);
      RedeemCoupon(couponCode);
      id := nextOrderId;
      nextOrderId := nextOrderId + 1;
      RecordOrder(id, placed, lines, draw);
      CartsOkUpdate(catalog, carts, nextCartId, nextItemId, nextItemId, cartId, []);
      carts := carts[cartId := carts[cartId].(lines := [])];
    }

    /** OrderViewSet.create, for the logged-in customer `user`: the request's
        fields are validated first; nothing changes unless they all pass. */
    method CreateOrder(user: UserId, cartId: CartId, couponCode: Option<string>,
                       billing: string, shipping: string, notes: string, now: int, draw: string)
      returns (r: Result<OrderId, OrderRequestErrors>)
      requires Valid() && IsOrderNumber(draw)
      modifies this
      ensures Valid()
      ensures var errors := ValidateOrderRequest(old(carts), old(coupons), Customer(user), cartId, couponCode, now);
              && (r.Ok? <==> errors.None?)
              && (r.Err? ==> r.error == errors.value)
      ensures r.Err? ==> catalog == old(catalog) && coupons == old(coupons) && carts == old(carts) && orders == old(orders)
                         && nextOrderId == old(nextOrderId)
      ensures r.Ok? ==>
                var lines := old(carts)[cartId].lines;
                && lines != [] && BelongsTo(old(carts)[cartId], Customer(user))
                && r.value == old(nextOrderId) && r.value !in old(orders)
                && orders == old(orders)[r.value := PlacedOrder(old(catalog), user, lines, CheckoutCoupon(old(coupons), couponCode),
                                                                billing, shipping, notes).(orderNumber := draw)]
                && catalog == Shift(old(catalog), LineMoves(lines), Deduct)
                && coupons == UseCoupon(old(coupons), couponCode)
                && carts == old(carts)[cartId := old(carts)[cartId].(lines := [])]
                && nextOrderId == old(nextOrderId) + 1
      ensures nextCartId == old(nextCartId) && nextItemId == old(nextItemId)
    {
      var errors := ValidateOrderRequest(carts, coupons, Customer(user), cartId, couponCode, now);
      if errors.Some? {
        return Err(errors.value);
      }
      var id := PlaceOrder(user, cartId, couponCode, billing, shipping, notes, draw);
      r := Ok(id);
    }

    /** OrderViewSet.cancel, for the logged-in customer `user`. */
    method CancelOrder(user: UserId, id: OrderId) returns (r: Result<Order, CancelError>, e: Option<StatusEvent>)
      requires Valid()
      modifies this
      ensures Valid()
      ensures r == Err(OrderNotFound) <==> id !in old(orders) || old(orders)[id].customer != user
      ensures r == Err(CannotCancel) <==> id in old(orders) && old(orders)[id].customer == user && IsTerminal(old(orders)[id].status)
      ensures r.Ok? <==> id in old(orders) && old(orders)[id].customer == user && !IsTerminal(old(orders)[id].status)
      ensures r.Err? ==> catalog == old(catalog) && orders == old(orders) && e.None?
      ensures r.Ok? ==>
                && orders == old(orders)[id := old(orders)[id].(status := Cancelled)]
                && r.value == orders[id]
                && catalog == Shift(old(catalog), ItemMoves(old(orders)[id].items), Restore)
                && e == OnOrderSaved(false, Some(old(orders)[id].status), id, orders[id]) && e.Some?
      ensures coupons == old(coupons) && carts == old(carts)
      ensures nextCartId == old(nextCartId) && nextItemId == old(nextItemId) && nextOrderId == old(nextOrderId)
    {
      if id !in orders || orders[id].customer != user {
        return Err(OrderNotFound), None;
      }
      var o := orders[id];
      if IsTerminal(o.status) {
        return Err(CannotCancel), None;
      }
      var c0 := catalog;
      e := SaveOrder(id, o.(status := Cancelled), "");
      var items := o.items;
      var i := 0;
      while i < |items|
        invariant 0 <= i <= |items|
        invariant catalog == Shift(c0, ItemMoves(items[..i]), Restore)
        invariant orders == old(orders)[id := o.(status := Cancelled)]
        invariant coupons == old(coupons) && carts == old(carts)
        invariant nextCartId == old(nextCartId) && nextItemId == old(nextItemId) && nextOrderId == old(nextOrderId)
      {
        ApplyMove(ItemMove(items[i]), Restore);
        ItemMovesPrefix(items, i);
        assert ItemMoves(items[..i + 1])[..i] == ItemMoves(items[..i]);
        i := i + 1;
      }
      assert items[..i] == items;
      CartsOkSameKeys(c0, catalog, carts, nextCartId, nextItemId);
      r := Ok(orders[id]);
    }

    /** Checkout followed at once by cancelling the new order: the cancel is
        accepted, and every stock row is back where it was before checkout. */
    method CheckoutThenCancel(user: UserId, cartId: CartId, couponCode: Option<string>,
                              billing: string, shipping: string, notes: string, now: int, draw: string)
      returns (r: Result<OrderId, OrderRequestErrors>, e: Option<StatusEvent>)
      requires Valid() && IsOrderNumber(draw)
      modifies this
      ensures Valid()
      ensures r.Ok? ==> catalog == old(catalog) && r.value in orders && orders[r.value].status == Cancelled
      ensures r.Ok? ==> e.Some? && e.value.oldStatus == Pending && e.value.newStatus == Cancelled
    {
      var c0 := catalog;
      ghost var lines := if cartId in carts then carts[cartId].lines else [];
      r := CreateOrder(user, cartId, couponCode, billing, shipping, notes, now, draw);
      e := None;
      if r.Ok? {
        assert CartOk(c0, lines, nextItemId);
        var placed := PlacedOrder(c0, user, lines, CheckoutCoupon(old(coupons), couponCode), billing, shipping, notes);
        assert orders[r.value] == placed.(orderNumber := draw);
        assert orders[r.value].items == Snapshots(c0, lines);
        assert orders[r.value].customer == user && !IsTerminal(orders[r.value].status);
        var c1 := catalog;
        assert c1 == Shift(c0, LineMoves(lines), Deduct);
        var cancelled;
        cancelled, e := CancelOrder(user, r.value);
        assert cancelled.Ok?;
        assert catalog == Shift(c1, ItemMoves(Snapshots(c0, lines)), Restore);
        CreateThenCancelRestoresStock(c0, lines);
      }
    }
  }
}
