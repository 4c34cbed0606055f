/** Coupon discounts and checkout totals (product/views.py): the discount
    rule shared by the coupon validation endpoint and by checkout, the
    validation endpoint itself, and the order totals checkout computes. */
module Pricing {
  import opened Basics
  import opened Models

  const ShippingFee: real := 10.0
  const FreeShippingFrom: real := 100.0

  /** The discount a coupon gives on an amount before any cap: a percentage of
      the amount, or the coupon's value as it stands for any other type. */
  function RawDiscount(c: Coupon, amount: real): real {
    if c.discountType == Percentage then amount * (c.discountValue / 100.0) else c.discountValue
  }

  /** `if coupon.maximum_discount_amount:` -- a null or zero cap is no cap. */
  predicate HasCap(c: Coupon) {
    c.maximumDiscountAmount.Some? && c.maximumDiscountAmount.value != 0.0
  }

  /** `if coupon.minimum_order_amount` -- likewise for the minimum. */
  predicate HasMinimum(c: Coupon) {
    c.minimumOrderAmount.Some? && c.minimumOrderAmount.value != 0.0
  }

  /** The raw discount, capped at the maximum when there is one. */
  function CouponDiscount(c: Coupon, amount: real): (r: real)
    ensures r <= RawDiscount(c, amount)
    ensures HasCap(c) ==> r <= c.maximumDiscountAmount.value
    ensures r == RawDiscount(c, amount) || (HasCap(c) && r == c.maximumDiscountAmount.value)
    ensures !HasCap(c) ==> r == RawDiscount(c, amount)
  {
    var raw := RawDiscount(c, amount);
    if HasCap(c) && c.maximumDiscountAmount.value < raw then c.maximumDiscountAmount.value else raw
  }

  /** The `order_amount` of a request body as the JSON parser hands it over:
      an integer, or a float for a number written with a fraction or an
      exponent. Both compare exactly with a Decimal. */
  datatype Amount = IntAmount(i: int) | FloatAmount(f: real)

  function AmountValue(a: Amount): real {
    match a
    case IntAmount(i) => i as real
    case FloatAmount(f) => f
  }

  datatype CouponRejection =
    | CouponNotFound            // 404: no active coupon with this code
    | CouponNotValid            // "Coupon is not valid"
    | BelowMinimum(minimum: real)  // "Minimum order amount is ..."
    | AmountTypeError           // a float times a Decimal raises TypeError: a server error

  /** CouponViewSet.validate_coupon. The coupon is looked up among active
      coupons only, so an inactive one is not found; then it must be valid
      now, and the amount must reach a non-zero minimum. A percentage
      discount multiplies the amount by a Decimal, which Python refuses for a
      float; a fixed discount never touches the amount. */
  function ValidateCoupon(coupons: map<string, Coupon>, code: string, amount: Amount, now: int)
    : (r: Result<real, CouponRejection>)
    ensures r == Err(CouponNotFound) <==> code !in coupons || !coupons[code].isActive
    ensures r == Err(CouponNotValid) <==> code in coupons && coupons[code].isActive && !CouponIsValid(coupons[code], now)
    ensures r.Err? && r.error.BelowMinimum? <==>
              code in coupons && CouponIsValid(coupons[code], now)
              && HasMinimum(coupons[code]) && AmountValue(amount) < coupons[code].minimumOrderAmount.value
    ensures r.Err? && r.error.BelowMinimum? ==> r.error.minimum == coupons[code].minimumOrderAmount.value
    ensures r == Err(AmountTypeError) <==>
              code in coupons && CouponIsValid(coupons[code], now)
              && !(HasMinimum(coupons[code]) && AmountValue(amount) < coupons[code].minimumOrderAmount.value)
              && amount.FloatAmount? && coupons[code].discountType == Percentage
    ensures r.Ok? <==> code in coupons && CouponIsValid(coupons[code], now)
                       && !(HasMinimum(coupons[code]) && AmountValue(amount) < coupons[code].minimumOrderAmount.value)
                       && !(amount.FloatAmount? && coupons[code].discountType == Percentage)
    ensures r.Ok? ==> r.value == CouponDiscount(coupons[code], AmountValue(amount))
  {
    if code !in coupons || !coupons[code].isActive then Err(CouponNotFound)
    else
      var c := coupons[code];
      if !CouponIsValid(c, now) then Err(CouponNotValid)
      else if HasMinimum(c) && AmountValue(amount) < c.minimumOrderAmount.value then Err(BelowMinimum(c.minimumOrderAmount.value))
      else if amount.FloatAmount? && c.discountType == Percentage then Err(AmountTypeError)
      else Ok(CouponDiscount(c, AmountValue(amount)))
  }

  /** The same amount is quoted when sent as the integer 60 and fails when sent
      as 59.99: only the JSON number's type decides. */
  lemma FractionalAmountFailsPercentage(coupons: map<string, Coupon>, code: string, now: int)
    requires code in coupons && CouponIsValid(coupons[code], now)
    requires coupons[code].discountType == Percentage && !HasMinimum(coupons[code])
    ensures ValidateCoupon(coupons, code, FloatAmount(59.99), now) == Err(AmountTypeError)
    ensures ValidateCoupon(coupons, code, IntAmount(60), now) == Ok(CouponDiscount(coupons[code], 60.0))
  {
  }

  /** Example: 20% of 50 is 10, capped at 5. */
  lemma CappedPercentageExample(c: Coupon)
    requires c.discountType == Percentage && c.discountValue == 20.0
    requires c.maximumDiscountAmount == Some(5.0)
    ensures CouponDiscount(c, 50.0) == 5.0
  {
  }

  datatype Totals = Totals(subtotal: real, tax: real, shipping: real, discount: real, total: real)

  /** The totals of OrderViewSet.create: a flat 10% tax, 10.00 shipping under
      a subtotal of 100, the coupon's capped discount, and no floor on the total. */
  function CheckoutTotals(subtotal: real, coupon: Option<Coupon>): (t: Totals)
    ensures t.subtotal == subtotal
    ensures t.total == t.subtotal + t.tax + t.shipping - t.discount
    ensures t.tax == subtotal * 0.10
    ensures t.shipping == (if subtotal < FreeShippingFrom then ShippingFee else 0.0)
    ensures coupon.None? ==> t.discount == 0.0
    ensures coupon.Some? ==> t.discount == CouponDiscount(coupon.value, subtotal)
  {
    var tax := subtotal * 0.10;
    var shipping := if subtotal < FreeShippingFrom then ShippingFee else 0.0;
    var discount := if coupon.Some? then CouponDiscount(coupon.value, subtotal) else 0.0;
    Totals(subtotal, tax, shipping, discount, subtotal + tax + shipping - discount)
  }

  /** Checkout applies the same capped discount that validation would quote,
      but never checks the minimum order amount: a coupon the endpoint turns
      down for a small order still discounts that order at checkout. */
  lemma CheckoutIgnoresMinimum(coupons: map<string, Coupon>, code: string, amount: Amount, now: int)
    requires code in coupons && CouponIsValid(coupons[code], now)
    requires HasMinimum(coupons[code]) && AmountValue(amount) < coupons[code].minimumOrderAmount.value
    ensures ValidateCoupon(coupons, code, amount, now) == Err(BelowMinimum(coupons[code].minimumOrderAmount.value))
    ensures CheckoutTotals(AmountValue(amount), Some(coupons[code])).discount
            == CouponDiscount(coupons[code], AmountValue(amount))
  {
  }

  /** Whatever validation accepts, checkout discounts by the same amount. */
  lemma CheckoutMatchesValidation(coupons: map<string, Coupon>, code: string, amount: Amount, now: int)
    requires ValidateCoupon(coupons, code, amount, now).Ok?
    ensures code in coupons
    ensures CheckoutTotals(AmountValue(amount), Some(coupons[code])).discount
            == ValidateCoupon(coupons, code, amount, now).value
  {
  }

  /** A percentage coupon of at most 100% never makes the total negative. */
  lemma PercentageCouponKeepsTotalNonNegative(subtotal: real, c: Coupon)
    requires subtotal >= 0.0
    requires c.discountType == Percentage && 0.0 <= c.discountValue <= 100.0
    ensures CheckoutTotals(subtotal, Some(c)).total >= 0.0
  {
    var f := c.discountValue / 100.0;
    assert 0.0 <= f <= 1.0;
    assert subtotal * f <= subtotal;
    var d := CouponDiscount(c, subtotal);
    assert d <= subtotal * f;
  }

  /** A fixed coupon larger than the order drives the total below zero:
      nothing floors it. */
  lemma FixedCouponCanMakeTotalNegative(c: Coupon)
    requires c.discountType == FixedAmount && c.discountValue == 500.0 && c.maximumDiscountAmount.None?
    ensures CheckoutTotals(20.0, Some(c)).total == -468.0
  {
  }

  /** Example: one phone at 999.99 ships free; tax is 99.999 before the column's rounding. */
  lemma PhoneOrderExample()
    ensures CheckoutTotals(999.99, None) == Totals(999.99, 99.999, 0.0, 0.0, 1099.989)
  {
  }
}
