/** The request validators of product/serializers.py: the cart-item checks
    run before add_item, and the cart and coupon checks run before checkout.
    Each returns its input unchanged or the error it raises. */
module Serializers {
  import opened Basics
  import opened Models

  // ---------------------------------------------------------------------
  // CartItemSerializer

  /** The write-only fields add_item reads: product_id, variant_id (optional)
      and quantity. */
  datatype AddItemRequest = AddItemRequest(productId: ProductId, variantId: Option<VariantId>, quantity: int)

  /** The upper end of a PositiveIntegerField's range, which the model
      field CartItem.quantity passes to the serializer field as max_value. */
  const MaxQuantity: int := 2147483647

  datatype CartItemError =
    | QuantityBelowMinimum       // "Ensure this value is greater than or equal to 0."
    | QuantityAboveMaximum       // "Ensure this value is less than or equal to 2147483647."
    | QuantityNotPositive        // "Quantity must be greater than 0"
    | ProductNotFound            // "Product not found or inactive"
    | VariantNotFound            // "Product variant not found"
    | InsufficientVariantStock   // "Insufficient stock for variant"
    | InsufficientStock          // "Insufficient stock"

  /** The quantity field itself. CartItemSerializer declares none, so it is
      generated from CartItem.quantity, a PositiveIntegerField: an integer
      field with min_value 0 and max_value MaxQuantity. Its bounds are checked
      before validate_quantity runs. */
  function QuantityField(q: int): (r: Result<int, CartItemError>)
    ensures r.Ok? <==> 0 <= q <= MaxQuantity
    ensures r.Ok? ==> r.value == q
    ensures r == Err(QuantityBelowMinimum) <==> q < 0
    ensures r == Err(QuantityAboveMaximum) <==> q > MaxQuantity
  {
    if q < 0 then Err(QuantityBelowMinimum)
    else if q > MaxQuantity then Err(QuantityAboveMaximum)
    else Ok(q)
  }

  /** CartItemSerializer.validate_quantity. */
  function ValidateQuantity(q: int): (r: Result<int, CartItemError>)
    ensures r.Ok? <==> q > 0
    ensures r.Ok? ==> r.value == q
    ensures r.Err? ==> r.error == QuantityNotPositive
  {
    if q <= 0 then Err(QuantityNotPositive) else Ok(q)
  }

  /** An active product row with this id. */
  predicate ActiveProduct(c: Catalog, p: ProductId) {
    p in c.products && c.products[p].isActive
  }

  /** An active variant row with this id that belongs to product p. */
  predicate ActiveVariantOf(c: Catalog, v: VariantId, p: ProductId) {
    v in c.variants && c.variants[v].product == p && c.variants[v].isActive
  }

  /** The generated bounds of the quantity field, then validate_quantity, then
      CartItemSerializer.validate. Stock is compared with the requested
      quantity alone. */
  function ValidateCartItem(c: Catalog, req: AddItemRequest): (r: Result<AddItemRequest, CartItemError>)
    ensures r.Ok? ==> r.value == req
    ensures r.Ok? ==> 0 < req.quantity <= MaxQuantity
    ensures r == Err(QuantityBelowMinimum) <==> req.quantity < 0
    ensures r == Err(QuantityAboveMaximum) <==> req.quantity > MaxQuantity
    ensures r == Err(QuantityNotPositive) <==> req.quantity == 0
    ensures r == Err(ProductNotFound) <==> 0 < req.quantity <= MaxQuantity && !ActiveProduct(c, req.productId)
    ensures r == Err(VariantNotFound) <==>
              0 < req.quantity <= MaxQuantity && ActiveProduct(c, req.productId)
              && req.variantId.Some? && !ActiveVariantOf(c, req.variantId.value, req.productId)
    ensures r == Err(InsufficientVariantStock) <==>
              0 < req.quantity <= MaxQuantity && ActiveProduct(c, req.productId)
              && req.variantId.Some? && ActiveVariantOf(c, req.variantId.value, req.productId)
              && c.variants[req.variantId.value].stockQuantity < req.quantity
    ensures r == Err(InsufficientStock) <==>
              0 < req.quantity <= MaxQuantity && ActiveProduct(c, req.productId) && req.variantId.None?
              && c.products[req.productId].trackInventory && c.products[req.productId].stockQuantity < req.quantity
    ensures r.Ok? ==> LineIn(c, CartLine(0, req.productId, req.variantId, req.quantity))
  {
    if QuantityField(req.quantity).Err? then Err(QuantityField(req.quantity).error)
    else if ValidateQuantity(req.quantity).Err? then Err(QuantityNotPositive)
    else if !ActiveProduct(c, req.productId) then Err(ProductNotFound)
    else
      var product := c.products[req.productId];
      match req.variantId
      case Some(v) =>
        if !ActiveVariantOf(c, v, req.productId) then Err(VariantNotFound)
        else if c.variants[v].stockQuantity < req.quantity then Err(InsufficientVariantStock)
        else Ok(req)
      case None =>
        if product.trackInventory && product.stockQuantity < req.quantity then Err(InsufficientStock)
        else Ok(req)
  }

  /** A product that does not track inventory accepts any quantity the field
      admits, of itself without a variant, whatever its stock says. */
  lemma UntrackedAlwaysPasses(c: Catalog, p: ProductId, q: int)
    requires ActiveProduct(c, p) && !c.products[p].trackInventory
    ensures ValidateCartItem(c, AddItemRequest(p, None, q)).Ok? <==> 0 < q <= MaxQuantity
  {
  }

  /** Out-of-range quantities are refused by the field, before
      validate_quantity or any catalogue lookup, whatever the product. */
  lemma FieldBoundsComeFirst(c: Catalog, req: AddItemRequest)
    requires req.quantity < 0 || req.quantity > MaxQuantity
    ensures ValidateCartItem(c, req).Err?
    ensures ValidateCartItem(c, req).error == QuantityField(req.quantity).error
  {
  }

  /** The check reads the catalogue and the request only, never a cart: a
      request for exactly the remaining stock of a tracked product is accepted
      whatever any cart already holds of it (Views.Shop.AddFullStockTwice
      shows the effect of two such adds). */
  lemma StockCheckIgnoresCart(c: Catalog, p: ProductId)
    requires ActiveProduct(c, p) && c.products[p].trackInventory
    requires 0 < c.products[p].stockQuantity <= MaxQuantity
    ensures ValidateCartItem(c, AddItemRequest(p, None, c.products[p].stockQuantity)).Ok?
  {
  }

  // ---------------------------------------------------------------------
  // OrderCreateSerializer

  datatype CartIdError =
    | CartNotFound     // "Cart not found"
    | NotYourCart      // "Cart does not belong to user"
    | NotYourSession   // "Cart does not belong to session"
    | CartEmpty        // "Cart is empty"

  /** OrderCreateSerializer.validate_cart_id. */
  function ValidateCartId(carts: map<CartId, Cart>, id: CartId, who: Requester): (r: Result<CartId, CartIdError>)
    ensures r.Ok? <==> id in carts && BelongsTo(carts[id], who) && carts[id].lines != []
    ensures r.Ok? ==> r.value == id
    ensures r == Err(CartNotFound) <==> id !in carts
    ensures r == Err(NotYourCart) <==> id in carts && who.Customer? && !BelongsTo(carts[id], who)
    ensures r == Err(NotYourSession) <==> id in carts && who.Visitor? && !BelongsTo(carts[id], who)
    ensures r == Err(CartEmpty) <==> id in carts && BelongsTo(carts[id], who) && carts[id].lines == []
  {
    if id !in carts then Err(CartNotFound)
    else
      var cart := carts[id];
      if !BelongsTo(cart, who) then (if who.Customer? then Err(NotYourCart) else Err(NotYourSession))
      else if cart.lines == [] then Err(CartEmpty)
      else Ok(id)
  }

  /** A visitor whose session has no key yet owns no cart to check out. */
  lemma KeylessVisitorRejected(carts: map<CartId, Cart>, id: CartId)
    ensures ValidateCartId(carts, id, Visitor(None)).Err?
  {
  }

  datatype CouponCodeError =
    | CouponCodeNotFound   // "Coupon not found"
    | CouponCodeNotValid   // "Coupon is not valid"

  /** OrderCreateSerializer.validate_coupon_code: an empty code passes; any
      other must name a coupon (active or not) that is valid now. */
  function ValidateCouponCode(coupons: map<string, Coupon>, code: string, now: int): (r: Result<string, CouponCodeError>)
    ensures r.Ok? <==> code == "" || (code in coupons && CouponIsValid(coupons[code], now))
    ensures r.Ok? ==> r.value == code
    ensures r == Err(CouponCodeNotFound) <==> code != "" && code !in coupons
    ensures r == Err(CouponCodeNotValid) <==> code != "" && code in coupons && !CouponIsValid(coupons[code], now)
  {
    if code == "" then Ok(code)
    else if code !in coupons then Err(CouponCodeNotFound)
    else if !CouponIsValid(coupons[code], now) then Err(CouponCodeNotValid)
    else Ok(code)
  }

  /** The field errors checkout reports together: each field's own check
      runs, and the request fails if either reports an error. */
  datatype OrderRequestErrors = OrderRequestErrors(cartId: Option<CartIdError>, couponCode: Option<CouponCodeError>)

  function ErrorOf<T, E>(r: Result<T, E>): Option<E> {
    if r.Err? then Some(r.error) else None
  }

  /** OrderCreateSerializer's field validation: cart_id always, coupon_code
      only when the field is present. */
  function ValidateOrderRequest(carts: map<CartId, Cart>, coupons: map<string, Coupon>, who: Requester,
                                cartId: CartId, couponCode: Option<string>, now: int)
    : (r: Option<OrderRequestErrors>)
    ensures r.None? <==> ValidateCartId(carts, cartId, who).Ok?
                         && (couponCode.None? || ValidateCouponCode(coupons, couponCode.value, now).Ok?)
    ensures r.Some? ==> r.value.cartId == ErrorOf(ValidateCartId(carts, cartId, who))
    ensures r.Some? && couponCode.Some? ==> r.value.couponCode == ErrorOf(ValidateCouponCode(coupons, couponCode.value, now))
    ensures r.Some? && couponCode.None? ==> r.value.couponCode.None?
  {
    var cartError := ErrorOf(ValidateCartId(carts, cartId, who));
    var couponError := if couponCode.Some? then ErrorOf(ValidateCouponCode(coupons, couponCode.value, now)) else None;
    if cartError.None? && couponError.None? then None else Some(OrderRequestErrors(cartError, couponError))
  }
}
