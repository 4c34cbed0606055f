/** OrderViewSet.update_status of notifications/views.py: write any of the
    seven known statuses to one of the customer's orders, whatever its
    current status, and let Order.save send the notification. */
module NotificationViews {
  import opened Basics
  import opened Models
  import opened Signals
  import opened Inventory
  import opened Views

  /** The success body: the order's id and the status string as sent. */
  datatype StatusUpdated = StatusUpdated(orderId: OrderId, newStatus: string)

  datatype StatusError = NoSuchOrder | InvalidStatus   // 404 / "Invalid status"

  /** `status` is read from the request body and may be absent (None). */
  method UpdateStatus(shop: Shop, user: UserId, id: OrderId, status: Option<string>)
    returns (r: Result<StatusUpdated, StatusError>, e: Option<StatusEvent>)
    requires shop.Valid()
    modifies shop
    ensures shop.Valid()
    ensures r == Err(NoSuchOrder) <==> id !in old(shop.orders) || old(shop.orders)[id].customer != user
    ensures r == Err(InvalidStatus) <==>
              id in old(shop.orders) && old(shop.orders)[id].customer == user
              && (status.None? || ParseStatus(status.value).None?)
    ensures r.Ok? <==>
              id in old(shop.orders) && old(shop.orders)[id].customer == user
              && status.Some? && ParseStatus(status.value).Some?
    ensures r.Err? ==> shop.orders == old(shop.orders) && e.None?
    ensures r.Ok? ==>
              var before := old(shop.orders)[id];
              var next := ParseStatus(status.value).value;
              && r.value == StatusUpdated(id, status.value)
              && StatusName(next) == status.value
              && shop.orders == old(shop.orders)[id := before.(status := next)]
              && e == OnOrderSaved(false, Some(before.status), id, shop.orders[id])
              && (e.None? <==> before.status == next)
    ensures shop.catalog == old(shop.catalog) && shop.coupons == old(shop.coupons) && shop.carts == old(shop.carts)
    ensures shop.nextCartId == old(shop.nextCartId) && shop.nextItemId == old(shop.nextItemId)
            && shop.nextOrderId == old(shop.nextOrderId)
  {
    if id !in shop.orders || shop.orders[id].customer != user {
      return Err(NoSuchOrder), None;
    }
    if status.None? || ParseStatus(status.value).None? {
      return Err(InvalidStatus), None;
    }
    var next := ParseStatus(status.value).value;
    ParseStatusRoundTrip(next, status.value);
    var o := shop.orders[id];
    e := shop.SaveOrder(id, o.(status := next), "");
    r := Ok(StatusUpdated(id, status.value));
  }

  /** There is no transition table: a delivered order can be sent back to
      pending, and that change is announced with the default message. */
  lemma DeliveredBackToPending(orders: map<OrderId, Order>, id: OrderId)
    requires id in orders && orders[id].status == Delivered
    ensures ParseStatus("pending") == Some(Pending)
    ensures var e := OnOrderSaved(false, StoredStatus(orders, Some(id)), id, orders[id].(status := Pending));
            e.Some? && e.value.oldStatus == Delivered && e.value.message == DefaultMessage
  {
  }

  /** Nothing stops a cancelled order from being reopened: update_status sets
      it back to pending, and a second cancel is then accepted and restores
      the order's stock once more. */
  method ReopenAndCancelAgain(shop: Shop, user: UserId, id: OrderId)
    returns (r: Result<StatusUpdated, StatusError>, c: Result<Order, CancelError>)
    requires shop.Valid()
    requires id in shop.orders && shop.orders[id].customer == user && shop.orders[id].status == Cancelled
    modifies shop
    ensures shop.Valid()
    ensures r.Ok? && c.Ok? && c.value.status == Cancelled
    ensures shop.catalog == Shift(old(shop.catalog), ItemMoves(old(shop.orders)[id].items), Restore)
  {
    var e;
    assert ParseStatus("pending") == Some(Pending);
    r, e := UpdateStatus(shop, user, id, Some("pending"));
    assert shop.orders[id].customer == user && shop.orders[id].status == Pending;
    assert !IsTerminal(Pending);
    c, e := shop.CancelOrder(user, id);
  }
}
