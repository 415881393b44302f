/**
 * The demo order utilities: `createDemoOrder` puts a fixed three-item order
 * at the front of a user's local order list, and `clearDemoOrders` removes
 * the list. The random id suffix, the clock and `Math.random()` are
 * parameters.
 */
module DemoData {
  import opened JsText
  import opened Records
  import opened LocalStore
  import Payment

  const DemoBasket: seq<CartItem> := [
    CartItem(1, "Apple iPhone 15 Pro - 128GB", 999.99, 1),
    CartItem(2, "Samsung Galaxy Buds Pro - Wireless Earbuds", 199.99, 1),
    CartItem(3, "Apple Watch Series 9 - 45mm", 399.99, 1)]

  const DemoTotals := Totals(1599.97, 0.0, 127.99, 1727.96)

  /** The stored `amount`, in cents: $1299.97. */
  const DemoAmount := 129997

  const SecondsPerWeek := 86400 * 7

  /** `Math.floor(Math.random() * 86400 * 7)` for `random` = `Math.random()`. */
  function WeekOffset(random: real): (r: int)
    requires 0.0 <= random < 1.0
    ensures 0 <= r < SecondsPerWeek
  {
    (random * 86400.0 * 7.0).Floor
  }

  /** The demo order literal, with `id` built from the random suffix. */
  function DemoOrder(userId: string, idSuffix: string, nowMs: nat, random: real): StoredOrder
    requires 0.0 <= random < 1.0
  {
    EmptyOrder.(id := Some("demo_order_" + idSuffix), amount := Some(DemoAmount),
                basket := Some(DemoBasket), created := Some(nowMs / 1000 - WeekOffset(random)),
                status := Some("delivered"), userId := Some(userId), totals := Some(DemoTotals),
                paymentMethod := Some(PaymentMethod("card", "4242", "Demo User")))
  }

  /** The demo order was created at some second of the past week, now included. */
  lemma DemoOrderWithinLastWeek(userId: string, idSuffix: string, nowMs: nat, random: real)
    requires 0.0 <= random < 1.0
    ensures var created := DemoOrder(userId, idSuffix, nowMs, random).created.value;
      nowMs / 1000 - (SecondsPerWeek - 1) <= created <= nowMs / 1000
  {
  }

  /**
   * `createDemoOrder(userId)`: the demo order goes to the front of
   * `orders_<userId>`, the earlier orders follow unchanged, and the order
   * stored is the one returned.
   */
  method CreateDemoOrder(store: LocalStorage, userId: string, idSuffix: string, nowMs: nat, random: real)
    returns (order: StoredOrder)
    requires 0.0 <= random < 1.0
    modifies store
    ensures order == DemoOrder(userId, idSuffix, nowMs, random)
    ensures order.userId == Some(userId) && order.status == Some("delivered")
    ensures store.orderLists == old(store.orderLists)[OrdersKey(userId) := [order] + old(store.Read(OrdersKey(userId)))]
    ensures store.Read(OrdersKey(userId))[0] == order
    ensures store.Read(OrdersKey(userId))[1..] == old(store.Read(OrdersKey(userId)))
    ensures store.lastOrder == old(store.lastOrder)
  {
    order := DemoOrder(userId, idSuffix, nowMs, random);
    store.Prepend(OrdersKey(userId), order);
  }

  /** `clearDemoOrders(userId)`: the user's key is removed, so the list reads as empty. */
  method ClearDemoOrders(store: LocalStorage, userId: string)
    modifies store
    ensures store.orderLists == old(store.orderLists) - {OrdersKey(userId)}
    ensures store.Read(OrdersKey(userId)) == []
    ensures forall k :: k != OrdersKey(userId) ==> store.Read(k) == old(store.Read(k))
    ensures store.lastOrder == old(store.lastOrder)
  {
    store.Remove(OrdersKey(userId));
  }

  /** The sum of price times quantity over a basket. */
  function BasketSubtotal(items: seq<CartItem>): real {
    if items == [] then 0.0
    else
      var last := items[|items| - 1];
      BasketSubtotal(items[..|items| - 1]) + last.price * last.quantity as real
  }

  /** The demo totals add up: the subtotal is the basket's, and the total is subtotal, shipping and tax. */
  lemma DemoTotalsConsistent()
    ensures DemoTotals.subtotal == BasketSubtotal(DemoBasket)
    ensures DemoTotals.total == DemoTotals.subtotal + DemoTotals.shipping + DemoTotals.tax
  {
    assert DemoBasket[..2] == DemoBasket[..|DemoBasket| - 1][..2];
    assert BasketSubtotal(DemoBasket[..1]) == 999.99;
    assert BasketSubtotal(DemoBasket[..2]) == 999.99 + 199.99;
  }

  /**
   * The stored amount is not the total in cents: 129997 cents is $1299.97,
   * while the totals say $1727.96 (172796 cents). The order history's
   * statistics use the amount.
   */
  lemma DemoAmountIsNotTotal()
    ensures DemoAmount as real != DemoTotals.total * 100.0
    ensures Payment.AmountInCents(DemoTotals.total) == 172796
  {
  }

  /**
   * The demo tax is 8% of the subtotal cut to whole cents (127.9976 to
   * 127.99), not rounded to the nearest cent as the checkout's amount is.
   */
  lemma DemoTaxTruncated()
    ensures Payment.Tax(DemoTotals.subtotal) == 127.9976
    ensures DemoTotals.tax * 100.0 == (Payment.Tax(DemoTotals.subtotal) * 100.0).Floor as real
    ensures Payment.AmountInCents(Payment.Tax(DemoTotals.subtotal)) == 12800
  {
  }
}
