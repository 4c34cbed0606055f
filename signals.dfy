/** The order status notifications of notifications/signals.py: the status
    read before a save, and the event sent after it to the customer's
    channel group. The send itself, and the event's timestamp, are outside
    the model: the event to send is returned as a value. */
module Signals {
  import opened Basics
  import opened Models

  /** store_old_status: the stored status of the order being saved, or None
      when it has no key or no stored row yet. */
  function StoredStatus(orders: map<OrderId, Order>, pk: Option<OrderId>): (r: Option<OrderStatus>)
    ensures r.Some? <==> pk.Some? && pk.value in orders
    ensures r.Some? ==> r.value == orders[pk.value].status
  {
    match pk
    case None => None
    case Some(id) => if id in orders then Some(orders[id].status) else None
  }

  const DefaultMessage: string := "Your order status has been updated."

  /** The message table, with its default for a status it does not list. */
  function StatusMessage(s: OrderStatus): (m: string)
    ensures m == DefaultMessage <==> s == Pending
  {
    match s
    case Confirmed => "Your order has been confirmed!"
    case Processing => "Your order is being processed."
    case Shipped => "Your order has been shipped!"
    case Delivered => "Your order has been delivered."
    case Cancelled => "Your order has been cancelled."
    case Refunded => "Your order has been refunded."
    case Pending => DefaultMessage
  }

  /** The six listed statuses have six different messages. */
  lemma StatusMessagesDistinct(s: OrderStatus, t: OrderStatus)
    requires s != t
    ensures StatusMessage(s) != StatusMessage(t)
  {
  }

  // ---------------------------------------------------------------------
  // Group names: f"user_{id}_orders"

  function DigitChar(d: nat): char
    requires d < 10
  {
    "0123456789"[d]
  }

  function DigitValue(ch: char): nat {
    if '0' <= ch <= '9' then (ch as int - '0' as int) as nat else 0
  }

  /** The decimal numeral of n, as str(n) writes it. */
  function Decimal(n: nat): (s: string)
    ensures |s| >= 1
    ensures forall i :: 0 <= i < |s| ==> '0' <= s[i] <= '9'
  {
    if n < 10 then [DigitChar(n)] else Decimal(n / 10) + [DigitChar(n % 10)]
  }

  /** The number a string of decimal digits denotes. */
  function NumeralValue(s: string): nat {
    if s == [] then 0 else NumeralValue(s[..|s| - 1]) * 10 + DigitValue(s[|s| - 1])
  }

  lemma DigitRoundTrip(d: nat)
    requires d < 10
    ensures DigitValue(DigitChar(d)) == d
  {
  }

  lemma {:induction false} DecimalRoundTrip(n: nat)
    ensures NumeralValue(Decimal(n)) == n
  {
    if n < 10 {
      DigitRoundTrip(n);
      assert [DigitChar(n)][..0] == [];
    } else {
      var q, d := n / 10, n % 10;
      DecimalRoundTrip(q);
      DigitRoundTrip(d);
      var s := Decimal(n);
      assert s == Decimal(q) + [DigitChar(d)];
      assert s[..|s| - 1] == Decimal(q);
      assert NumeralValue(s) == q * 10 + d;
    }
  }

  /** The group of a user's order notifications; the consumer joins the same
      name (notifications/consumers.py). */
  function OrdersGroup(user: UserId): (g: string)
    ensures |g| >= 13 && g[..5] == "user_" && g[|g| - 7..] == "_orders"
  {
    "user_" + Decimal(user) + "_orders"
  }

  /** Distinct users never share a group. */
  lemma OrdersGroupInjective(a: UserId, b: UserId)
    requires OrdersGroup(a) == OrdersGroup(b)
    ensures a == b
  {
    var g := OrdersGroup(a);
    assert Decimal(a) == g[5..|g| - 7];
    assert Decimal(b) == g[5..|g| - 7];
    DecimalRoundTrip(a);
    DecimalRoundTrip(b);
  }

  // ---------------------------------------------------------------------
  // order_status_changed

  /** The group_send payload, without its timestamp. */
  datatype StatusEvent = StatusEvent(
    group: string,
    kind: string,
    orderId: OrderId,
    orderNumber: string,
    oldStatus: OrderStatus,
    newStatus: OrderStatus,
    message: string)

  /** The event sent after an order is saved: none for a new order, none when
      no earlier status was read (`prior`) or the status did not change. */
  function OnOrderSaved(created: bool, prior: Option<OrderStatus>, id: OrderId, o: Order): (e: Option<StatusEvent>)
    ensures e.Some? <==> !created && prior.Some? && prior.value != o.status
    ensures e.Some? ==> && e.value.group == OrdersGroup(o.customer)
                        && e.value.kind == "order_status_update"
                        && e.value.orderId == id
                        && e.value.orderNumber == o.orderNumber
                        && e.value.oldStatus == prior.value
                        && e.value.newStatus == o.status
                        && e.value.message == StatusMessage(o.status)
  {
    if created then None
    else if prior.Some? && prior.value != o.status then
      Some(StatusEvent(OrdersGroup(o.customer), "order_status_update", id, o.orderNumber, prior.value, o.status,
                       StatusMessage(o.status)))
    else None
  }

  /** Saving an order with the status it already has sends nothing. */
  lemma UnchangedStatusIsSilent(orders: map<OrderId, Order>, id: OrderId, o: Order)
    requires id in orders && orders[id].status == o.status
    ensures OnOrderSaved(false, StoredStatus(orders, Some(id)), id, o).None?
  {
  }
}
