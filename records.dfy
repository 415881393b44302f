/**
 * The records that the checkout writes, the order service and the demo
 * data store, and the order history reads back: cart lines, billing
 * address, totals, the masked payment method and the stored order.
 */
module Records {
  import opened JsText

  /** A cart line as the cart context holds it and as an order's `basket` keeps it. */
  datatype CartItem = CartItem(id: int, title: string, price: real, quantity: int)

  datatype BillingAddress = BillingAddress(
    street: string, city: string, state: string, zipCode: string, country: string)

  /** The four amounts shown at checkout, in dollars. */
  datatype Totals = Totals(subtotal: real, shipping: real, tax: real, total: real)

  /** What is kept of the card: its type, the last four characters and the holder's name. */
  datatype PaymentMethod = PaymentMethod(kind: string, last4: string, cardName: string)

  /**
   * One element of the JSON array kept under `orders_<userId>`. The three
   * writers (checkout, order service, demo data) each set a different
   * subset of the fields, so every field may be absent.
   */
  datatype StoredOrder = StoredOrder(
    id: Option<string>,
    userId: Option<string>,
    amount: Option<int>,
    basket: Option<seq<CartItem>>,
    created: Option<int>,
    status: Option<string>,
    paymentStatus: Option<string>,
    address: Option<BillingAddress>,
    totals: Option<Totals>,
    paymentMethod: Option<PaymentMethod>)

  /** A record with every field absent, the starting point of the writers' object literals. */
  const EmptyOrder := StoredOrder(None, None, None, None, None, None, None, None, None, None)
}
