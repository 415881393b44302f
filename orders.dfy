/**
 * The order history page: stored records are normalised into display
 * records, filtered by lower-cased status, sorted by one of four keys, and
 * summarised; one order at a time can be expanded. The Firestore query is an
 * oracle; the clock and the random parts of generated ids are parameters.
 */
module OrderHistory {
  import opened JsText
  import opened Records
  import opened LocalStore
  import opened Seqs
  import opened Sorting
  import OrderService
  import DemoData
  import Payment

  // ---------------------------------------------------------------------
  // Normalisation
  // ---------------------------------------------------------------------

  /** The `createdAt` of a display record: an instant in epoch milliseconds, or a remote document's text. */
  datatype CreatedAt = EpochMs(ms: int) | Text(iso: string)

  /** The record the page displays for one order. */
  datatype HistoryOrder = HistoryOrder(
    id: string,
    userId: string,
    items: seq<CartItem>,
    totalAmount: int,
    stripeTransactionId: Option<string>,
    timestamp: int,
    status: string,
    paymentStatus: string,
    createdAt: CreatedAt,
    billingAddress: Option<BillingAddress>,
    paymentMethod: Option<PaymentMethod>,
    totals: Option<Totals>)

  /** A document of the remote `users/<id>/orders` collection, with the two fields only remote documents carry. */
  datatype RemoteDoc = RemoteDoc(docId: string, data: StoredOrder,
                                 stripeTransactionId: Option<string>, createdAt: Option<string>)

  /** The outcome of the remote query (including the dynamic imports before it). */
  datatype RemoteQuery = Docs(docs: seq<RemoteDoc>) | QueryThrew(message: string)

  /** The largest distance from the epoch, in milliseconds, that a `Date` can hold. */
  const MaxDateMs := 8640000000000000

  /** `order.id || \`order_${Date.now()}_${random}\``: an absent or empty id is generated. */
  function LocalId(id: Option<string>, nowMs: nat, suffix: string): string {
    if id.Some? && id.value != "" then id.value else "order_" + NatToDecimal(nowMs) + "_" + suffix
  }

  /** `order.created || Math.floor(Date.now() / 1000)`: an absent or zero time is now. */
  function Timestamp(created: Option<int>, nowMs: nat): int {
    if created.Some? && created.value != 0 then created.value else nowMs / 1000
  }

  /** `order.status || 'delivered'`. */
  function StatusOrDelivered(status: Option<string>): string {
    if status.Some? && status.value != "" then status.value else "delivered"
  }

  /** `order.amount || 0`. */
  function AmountOrZero(amount: Option<int>): int {
    if amount.Some? then amount.value else 0
  }

  /** `order.basket || []`. */
  function ItemsOrEmpty(basket: Option<seq<CartItem>>): seq<CartItem> {
    if basket.Some? then basket.value else []
  }

  /**
   * `new Date(order.created * 1000).toISOString()`: `None` where it throws a
   * RangeError, i.e. when `created` is absent (`undefined * 1000` is NaN) or
   * the instant is outside the range a `Date` can hold.
   */
  function IsoCreatedAt(created: Option<int>): (r: Option<CreatedAt>)
    ensures r.Some? <==> created.Some? && -MaxDateMs <= created.value * 1000 <= MaxDateMs
  {
    if created.Some? && -MaxDateMs <= created.value * 1000 <= MaxDateMs then Some(EpochMs(created.value * 1000))
    else None
  }

  /** The display record of a local order, given the `createdAt` computed for it. */
  function LocalRecord(order: StoredOrder, userId: string, nowMs: nat, suffix: string, createdAt: CreatedAt): HistoryOrder {
    HistoryOrder(LocalId(order.id, nowMs, suffix), userId, ItemsOrEmpty(order.basket),
                 AmountOrZero(order.amount), order.id, Timestamp(order.created, nowMs),
                 StatusOrDelivered(order.status), "paid", createdAt, order.address,
                 order.paymentMethod, order.totals)
  }

  /** The local normalisation as written: it throws (`None`) for an order whose `createdAt` cannot be rendered. */
  function NormaliseAsWritten(order: StoredOrder, userId: string, nowMs: nat, suffix: string): Option<HistoryOrder> {
    match IsoCreatedAt(order.created)
    case Some(c) => Some(LocalRecord(order, userId, nowMs, suffix, c))
    case None => None
  }

  /**
   * The corrected local normalisation: an order whose `created` cannot be
   * rendered takes its `createdAt` from the defaulted `timestamp`, as its
   * `timestamp` already does.
   */
  function Normalise(order: StoredOrder, userId: string, nowMs: nat, suffix: string): HistoryOrder {
    match IsoCreatedAt(order.created)
    case Some(c) => LocalRecord(order, userId, nowMs, suffix, c)
    case None => LocalRecord(order, userId, nowMs, suffix, EpochMs(Timestamp(order.created, nowMs) * 1000))
  }

  /**
   * The defaults of the normalisation: a stored id is kept, a missing basket
   * is empty, a missing amount is 0, a missing or empty status is
   * 'delivered', and every local order counts as paid.
   */
  lemma NormaliseDefaults(order: StoredOrder, userId: string, nowMs: nat, suffix: string)
    ensures var h := Normalise(order, userId, nowMs, suffix);
      h.items == ItemsOrEmpty(order.basket) && h.totalAmount == AmountOrZero(order.amount)
      && h.status == StatusOrDelivered(order.status) && h.status != ""
      && h.paymentStatus == "paid" && h.userId == userId && h.stripeTransactionId == order.id
      && (order.id.Some? && order.id.value != "" ==> h.id == order.id.value)
      && (order.created.Some? && order.created.value != 0 ==> h.timestamp == order.created.value)
  {
  }

  /** Where the normalisation as written does not throw, the corrected one gives the same record. */
  lemma NormaliseAgreesWhenDated(order: StoredOrder, userId: string, nowMs: nat, suffix: string)
    ensures NormaliseAsWritten(order, userId, nowMs, suffix).Some? <==> IsoCreatedAt(order.created).Some?
    ensures IsoCreatedAt(order.created).Some? ==>
      NormaliseAsWritten(order, userId, nowMs, suffix) == Some(Normalise(order, userId, nowMs, suffix))
  {
  }

  /** Every local record has a `createdAt` that can be rendered. */
  predicate AllDated(orders: seq<StoredOrder>) {
    forall i :: 0 <= i < |orders| ==> IsoCreatedAt(orders[i].created).Some?
  }

  /**
   * `userOrders.map(...)` as written, the `i`th order using `suffix(from + i)`
   * as its random id part: one throwing element makes the whole map throw.
   */
  function MapAsWritten(orders: seq<StoredOrder>, userId: string, nowMs: nat, suffix: nat -> string, from: nat)
    : Option<seq<HistoryOrder>>
    decreases |orders|
  {
    if orders == [] then Some([])
    else
      match NormaliseAsWritten(orders[0], userId, nowMs, suffix(from))
      case None => None
      case Some(h) =>
        match MapAsWritten(orders[1..], userId, nowMs, suffix, from + 1)
        case None => None
        case Some(rest) => Some([h] + rest)
  }

  /** The corrected map from position `from` on: one display record per stored order, in the same order. */
  function NormaliseFrom(orders: seq<StoredOrder>, userId: string, nowMs: nat, suffix: nat -> string, from: nat)
    : (r: seq<HistoryOrder>)
    ensures |r| == |orders|
  {
    seq(|orders|, i requires 0 <= i < |orders| => Normalise(orders[i], userId, nowMs, suffix(from + i)))
  }

  /** The corrected `userOrders.map(...)`. */
  function NormaliseAll(orders: seq<StoredOrder>, userId: string, nowMs: nat, suffix: nat -> string)
    : seq<HistoryOrder>
  {
    NormaliseFrom(orders, userId, nowMs, suffix, 0)
  }

  lemma AllDatedTail(orders: seq<StoredOrder>)
    requires orders != []
    ensures AllDated(orders) <==> IsoCreatedAt(orders[0].created).Some? && AllDated(orders[1..])
  {
    if IsoCreatedAt(orders[0].created).Some? && AllDated(orders[1..]) {
      forall i | 0 <= i < |orders| ensures IsoCreatedAt(orders[i].created).Some? {
        if i > 0 {
          assert orders[i] == orders[1..][i - 1];
        }
      }
    }
    if AllDated(orders) {
      forall i | 0 <= i < |orders| - 1 ensures IsoCreatedAt(orders[1..][i].created).Some? {
        assert orders[1..][i] == orders[i + 1];
      }
    }
  }

  /** The map as written throws exactly when some record is undated. */
  lemma {:induction false} MapAsWrittenSucceedsIffDated(orders: seq<StoredOrder>, userId: string, nowMs: nat,
                                                        suffix: nat -> string, from: nat)
    ensures MapAsWritten(orders, userId, nowMs, suffix, from).Some? <==> AllDated(orders)
    decreases |orders|
  {
    if orders != [] {
      MapAsWrittenSucceedsIffDated(orders[1..], userId, nowMs, suffix, from + 1);
      AllDatedTail(orders);
      NormaliseAgreesWhenDated(orders[0], userId, nowMs, suffix(from));
    }
  }

  lemma {:induction false} MapAsWrittenValue(orders: seq<StoredOrder>, userId: string, nowMs: nat,
                                             suffix: nat -> string, from: nat)
    requires AllDated(orders)
    ensures MapAsWritten(orders, userId, nowMs, suffix, from) == Some(NormaliseFrom(orders, userId, nowMs, suffix, from))
    decreases |orders|
  {
    if orders != [] {
      AllDatedTail(orders);
      MapAsWrittenValue(orders[1..], userId, nowMs, suffix, from + 1);
      NormaliseAgreesWhenDated(orders[0], userId, nowMs, suffix(from));
      var rest := NormaliseFrom(orders[1..], userId, nowMs, suffix, from + 1);
      var all := NormaliseFrom(orders, userId, nowMs, suffix, from);
      assert [all[0]] + rest == all by {
        forall i | 1 <= i < |all| ensures all[i] == rest[i - 1] {
          assert orders[1..][i - 1] == orders[i];
        }
      }
    }
  }

  /**
   * The map as written succeeds exactly when every record is dated, and
   * then it agrees with the corrected normalisation.
   */
  lemma MapAsWrittenAgreesWhenDated(orders: seq<StoredOrder>, userId: string, nowMs: nat, suffix: nat -> string)
    ensures MapAsWritten(orders, userId, nowMs, suffix, 0).Some? <==> AllDated(orders)
    ensures AllDated(orders) ==>
      MapAsWritten(orders, userId, nowMs, suffix, 0) == Some(NormaliseAll(orders, userId, nowMs, suffix))
  {
    MapAsWrittenSucceedsIffDated(orders, userId, nowMs, suffix, 0);
    if AllDated(orders) {
      MapAsWrittenValue(orders, userId, nowMs, suffix, 0);
    }
  }

  /** A remote document: its id, `|| `-defaults, and the remote `paymentStatus` and `createdAt`. */
  function NormaliseRemote(doc: RemoteDoc, userId: string, nowMs: nat): (h: HistoryOrder)
    ensures h.id == doc.docId && h.userId == userId && h.status != ""
  {
    var d := doc.data;
    HistoryOrder(
      doc.docId, userId, ItemsOrEmpty(d.basket), AmountOrZero(d.amount),
      Some(if doc.stripeTransactionId.Some? && doc.stripeTransactionId.value != "" then doc.stripeTransactionId.value
           else doc.docId),
      Timestamp(d.created, nowMs), StatusOrDelivered(d.status),
      if d.paymentStatus.Some? && d.paymentStatus.value != "" then d.paymentStatus.value else "paid",
      if doc.createdAt.Some? && doc.createdAt.value != "" then Text(doc.createdAt.value) else EpochMs(nowMs),
      d.address, d.paymentMethod, d.totals)
  }

  /**
   * The defaults of the remote normalisation are those of the local one: a
   * missing basket is empty, a missing amount 0, a missing or empty status
   * 'delivered', a missing payment status 'paid'; and a remote document
   * shows the same items, amount, time, status, address, card and totals
   * as the same data stored locally.
   */
  lemma NormaliseRemoteDefaults(doc: RemoteDoc, userId: string, nowMs: nat, suffix: string)
    ensures var h := NormaliseRemote(doc, userId, nowMs);
      var d := doc.data;
      (d.basket.None? ==> h.items == []) && (d.amount.None? ==> h.totalAmount == 0)
      && (d.status.None? || d.status == Some("") ==> h.status == "delivered")
      && (d.paymentStatus.None? || d.paymentStatus == Some("") ==> h.paymentStatus == "paid")
      && (d.paymentStatus.Some? && d.paymentStatus.value != "" ==> h.paymentStatus == d.paymentStatus.value)
      && (d.created.Some? && d.created.value != 0 ==> h.timestamp == d.created.value)
    ensures var h := NormaliseRemote(doc, userId, nowMs);
      var l := Normalise(doc.data, userId, nowMs, suffix);
      h.items == l.items && h.totalAmount == l.totalAmount && h.timestamp == l.timestamp
      && h.status == l.status && h.billingAddress == l.billingAddress
      && h.paymentMethod == l.paymentMethod && h.totals == l.totals
  {
  }

  function NormaliseRemoteAll(docs: seq<RemoteDoc>, userId: string, nowMs: nat): (r: seq<HistoryOrder>)
    ensures |r| == |docs| && forall i :: 0 <= i < |docs| ==> r[i] == NormaliseRemote(docs[i], userId, nowMs)
  {
    seq(|docs|, i requires 0 <= i < |docs| => NormaliseRemote(docs[i], userId, nowMs))
  }

  /**
   * `fetchOrdersFromFirestore` as written: `None` where it throws. A local
   * map that throws inside the `try` is retried by the `catch`, which throws
   * again; a remote query that throws falls back to the local map.
   */
  function FetchOrdersAsWritten(local: seq<StoredOrder>, projectId: Option<string>, remote: RemoteQuery,
                                userId: string, nowMs: nat, suffix: nat -> string): Option<seq<HistoryOrder>> {
    if OrderService.UsesLocalStore(projectId) then MapAsWritten(local, userId, nowMs, suffix, 0)
    else match remote
      case Docs(docs) => Some(NormaliseRemoteAll(docs, userId, nowMs))
      case QueryThrew(_) => MapAsWritten(local, userId, nowMs, suffix, 0)
  }

  /** The corrected `fetchOrdersFromFirestore`, which never throws. */
  function FetchOrders(local: seq<StoredOrder>, projectId: Option<string>, remote: RemoteQuery,
                       userId: string, nowMs: nat, suffix: nat -> string): (r: seq<HistoryOrder>)
    ensures OrderService.UsesLocalStore(projectId) || remote.QueryThrew? ==>
      |r| == |local| && forall i :: 0 <= i < |local| ==> r[i] == Normalise(local[i], userId, nowMs, suffix(i))
    ensures !OrderService.UsesLocalStore(projectId) && remote.Docs? ==>
      |r| == |remote.docs| && forall i :: 0 <= i < |remote.docs| ==> r[i] == NormaliseRemote(remote.docs[i], userId, nowMs)
  {
    if OrderService.UsesLocalStore(projectId) then NormaliseAll(local, userId, nowMs, suffix)
    else match remote
      case Docs(docs) => NormaliseRemoteAll(docs, userId, nowMs)
      case QueryThrew(_) => NormaliseAll(local, userId, nowMs, suffix)
  }

  /**
   * The fetch as written throws exactly when it maps a local list holding
   * an undated record; whenever it does not throw, it returns what the
   * corrected fetch returns.
   */
  lemma FetchOrdersAgreesWhenItSucceeds(local: seq<StoredOrder>, projectId: Option<string>, remote: RemoteQuery,
                                        userId: string, nowMs: nat, suffix: nat -> string)
    ensures FetchOrdersAsWritten(local, projectId, remote, userId, nowMs, suffix).None? <==>
      (OrderService.UsesLocalStore(projectId) || remote.QueryThrew?) && !AllDated(local)
    ensures FetchOrdersAsWritten(local, projectId, remote, userId, nowMs, suffix).Some? ==>
      FetchOrdersAsWritten(local, projectId, remote, userId, nowMs, suffix)
      == Some(FetchOrders(local, projectId, remote, userId, nowMs, suffix))
  {
    MapAsWrittenAgreesWhenDated(local, userId, nowMs, suffix);
  }

  /**
   * Where the code as written throws, the corrected normalisation dates the
   * order by its defaulted `timestamp`: now, for an order without `created`.
   */
  lemma UndatedTakesTimestamp(order: StoredOrder, userId: string, nowMs: nat, suffix: string)
    requires IsoCreatedAt(order.created).None?
    ensures NormaliseAsWritten(order, userId, nowMs, suffix).None?
    ensures var h := Normalise(order, userId, nowMs, suffix);
      h.createdAt == EpochMs(h.timestamp * 1000)
      && (order.created.None? ==> h.timestamp == nowMs / 1000)
  {
  }

  /** The page's list after `loadOrders` as written: a fetch that throws leaves it empty. */
  function LoadedAsWritten(fetched: Option<seq<HistoryOrder>>): seq<HistoryOrder> {
    if fetched.Some? then fetched.value else []
  }

  /**
   * One local record without `created` (which line 29 explicitly allows
   * for) empties the whole history as written; the corrected fetch shows it.
   */
  lemma UndatedRecordEmptiesHistory(userId: string, nowMs: nat, suffix: nat -> string)
    ensures var local := [EmptyOrder.(id := Some("order_1"), amount := Some(1000))];
      LoadedAsWritten(FetchOrdersAsWritten(local, None, QueryThrew(""), userId, nowMs, suffix)) == []
      && |FetchOrders(local, None, QueryThrew(""), userId, nowMs, suffix)| == 1
      && FetchOrders(local, None, QueryThrew(""), userId, nowMs, suffix)[0].id == "order_1"
  {
    var local := [EmptyOrder.(id := Some("order_1"), amount := Some(1000))];
    MapAsWrittenAgreesWhenDated(local, userId, nowMs, suffix);
    assert !AllDated(local);
  }

  // ---------------------------------------------------------------------
  // Filter and sort
  // ---------------------------------------------------------------------

  /** The status filter: 'all', or the orders whose lower-cased status equals `filterStatus`. */
  function FilterByStatus(orders: seq<HistoryOrder>, filterStatus: string): (r: seq<HistoryOrder>)
    ensures IsSubseq(r, orders)
    ensures filterStatus == "all" ==> r == orders
    ensures filterStatus != "all" ==>
      forall o :: multiset(r)[o] == if ToLower(o.status) == filterStatus then multiset(orders)[o] else 0
  {
    if filterStatus == "all" then
      IsSubseqRefl(orders);
      orders
    else Filter(orders, (o: HistoryOrder) => ToLower(o.status) == filterStatus)
  }

  /** The filter options the page offers. */
  const FilterOptions := ["all", "delivered", "shipped", "processing", "paid", "cancelled"]

  /**
   * The sort key whose difference is the page's comparator: `b - a` on a
   * field sorts by the negated field, and an unknown `sortBy` compares
   * everything equal.
   */
  function SortKey(sortBy: string): HistoryOrder -> real {
    if sortBy == "newest" then (o: HistoryOrder) => -(o.timestamp as real)
    else if sortBy == "oldest" then (o: HistoryOrder) => o.timestamp as real
    else if sortBy == "highest" then (o: HistoryOrder) => -(o.totalAmount as real)
    else if sortBy == "lowest" then (o: HistoryOrder) => o.totalAmount as real
    else (o: HistoryOrder) => 0.0
  }

  /** What being sorted by each key means for the order fields. */
  lemma SortKeyMeaning(s: seq<HistoryOrder>, sortBy: string)
    requires SortedBy(s, SortKey(sortBy))
    ensures sortBy == "newest" ==> forall i, j :: 0 <= i < j < |s| ==> s[i].timestamp >= s[j].timestamp
    ensures sortBy == "oldest" ==> forall i, j :: 0 <= i < j < |s| ==> s[i].timestamp <= s[j].timestamp
    ensures sortBy == "highest" ==> forall i, j :: 0 <= i < j < |s| ==> s[i].totalAmount >= s[j].totalAmount
    ensures sortBy == "lowest" ==> forall i, j :: 0 <= i < j < |s| ==> s[i].totalAmount <= s[j].totalAmount
  {
  }

  /** Every sequence is sorted by the key of an unknown `sortBy`, so sorting leaves it as it is. */
  lemma UnknownSortKeepsOrder(s: seq<HistoryOrder>, sortBy: string)
    requires sortBy !in ["newest", "oldest", "highest", "lowest"]
    ensures SortedBy(s, SortKey(sortBy))
  {
    assert sortBy != "newest" && sortBy != "oldest" && sortBy != "highest" && sortBy != "lowest";
  }

  // ---------------------------------------------------------------------
  // Status display
  // ---------------------------------------------------------------------

  datatype StatusDisplay = StatusDisplay(icon: string, color: string, text: string)

  const PaidDisplay := StatusDisplay("\U{2705}", "#28a745", "Paid")
  const ShippedDisplay := StatusDisplay("\U{1F69A}", "#007bff", "Shipped")
  const DeliveredDisplay := StatusDisplay("\U{1F4E6}", "#28a745", "Delivered")
  const ProcessingDisplay := StatusDisplay("\U{23F3}", "#ffc107", "Processing")
  const CancelledDisplay := StatusDisplay("\U{274C}", "#dc3545", "Cancelled")

  /** The page's status table, keyed by lower-case status. */
  function StatusEntry(key: string): Option<StatusDisplay> {
    if key == "paid" then Some(PaidDisplay)
    else if key == "shipped" then Some(ShippedDisplay)
    else if key == "delivered" then Some(DeliveredDisplay)
    else if key == "processing" then Some(ProcessingDisplay)
    else if key == "cancelled" then Some(CancelledDisplay)
    else None
  }

  /** `getStatusDisplay`: the table entry of the lower-cased status, or the 'delivered' entry. */
  function GetStatusDisplay(status: string): (d: StatusDisplay)
    ensures d in StatusDisplays
    ensures StatusEntry(ToLower(status)).Some? ==> d == StatusEntry(ToLower(status)).value
    ensures StatusEntry(ToLower(status)).None? ==> d == DeliveredDisplay
  {
    match StatusEntry(ToLower(status))
    case Some(d) => d
    case None => DeliveredDisplay
  }

  /** The lookup ignores case. */
  lemma StatusDisplayIgnoresCase(status: string)
    ensures GetStatusDisplay(ToLower(status)) == GetStatusDisplay(status)
  {
    ToLowerIdempotent(status);
  }

  /** The displays of the status table. */
  const StatusDisplays := [PaidDisplay, ShippedDisplay, DeliveredDisplay, ProcessingDisplay, CancelledDisplay]

  /** Each display of the table is found again under its own label. */
  lemma LabelFindsDisplay(d: StatusDisplay)
    requires d in StatusDisplays
    ensures GetStatusDisplay(d.text) == d
  {
    if d == PaidDisplay {
      assert ToLower("Paid") == "paid";
    } else if d == ShippedDisplay {
      assert ToLower("Shipped") == "shipped";
    } else if d == DeliveredDisplay {
      assert ToLower("Delivered") == "delivered";
    } else if d == ProcessingDisplay {
      assert ToLower("Processing") == "processing";
    } else {
      assert d == CancelledDisplay;
      assert ToLower("Cancelled") == "cancelled";
    }
  }

  /** Looking up a display's own label gives the same display back. */
  lemma StatusLabelRoundTrip(status: string)
    ensures GetStatusDisplay(GetStatusDisplay(status).text) == GetStatusDisplay(status)
  {
    LabelFindsDisplay(GetStatusDisplay(status));
  }

  /** "succeeded" is not in the status table. */
  lemma SucceededNotInTable()
    ensures StatusEntry(ToLower("succeeded")).None?
  {
    ToLowerOfLowercase("succeeded");
  }

  /** An order with status "succeeded" shows as Delivered, and every filter option but 'all' hides it. */
  lemma SucceededShowsDelivered(h: HistoryOrder, filterStatus: string)
    requires h.status == "succeeded"
    requires filterStatus in FilterOptions && filterStatus != "all"
    ensures GetStatusDisplay(h.status) == DeliveredDisplay
    ensures FilterByStatus([h], filterStatus) == []
  {
    SucceededNotInTable();
    ToLowerOfLowercase("succeeded");
    FilterOfOne(h, (o: HistoryOrder) => ToLower(o.status) == filterStatus);
  }

  /**
   * Checkout stores status "succeeded", which the status table does not
   * know: such an order shows as Delivered, and every filter option but
   * 'all' hides it.
   */
  lemma CheckoutOrdersShowDelivered(intentId: string, cents: int, cart: seq<CartItem>, form: Payment.PaymentForm,
                                    nowMs: nat, user: Option<Payment.User>, subtotal: real,
                                    userId: string, suffix: string, filterStatus: string)
    requires filterStatus in FilterOptions && filterStatus != "all"
    ensures var h := Normalise(Payment.CheckoutRecord(intentId, cents, cart, form, nowMs, user, subtotal),
                               userId, nowMs, suffix);
      h.status == "succeeded" && GetStatusDisplay(h.status) == DeliveredDisplay
      && FilterByStatus([h], filterStatus) == []
  {
    var o := Payment.CheckoutRecord(intentId, cents, cart, form, nowMs, user, subtotal);
    Payment.CheckoutRecordFields(intentId, cents, cart, form, nowMs, user, subtotal);
    NormaliseDefaults(o, userId, nowMs, suffix);
    SucceededShowsDelivered(Normalise(o, userId, nowMs, suffix), filterStatus);
  }

  /**
   * A checkout record appears in the history as what was paid for: the
   * intent id, the amount in cents, the basket, the address and the masked
   * card, dated to the second it was saved; the normalisation as written
   * does not throw on it.
   */
  lemma CheckoutRecordInHistory(intentId: string, cents: int, cart: seq<CartItem>, form: Payment.PaymentForm,
                                nowMs: nat, user: Option<Payment.User>, subtotal: real,
                                userId: string, suffix: string)
    requires nowMs <= MaxDateMs
    ensures var o := Payment.CheckoutRecord(intentId, cents, cart, form, nowMs, user, subtotal);
      var h := Normalise(o, userId, nowMs, suffix);
      NormaliseAsWritten(o, userId, nowMs, suffix) == Some(h)
      && (intentId != "" ==> h.id == intentId)
      && h.totalAmount == cents && h.items == cart && h.billingAddress == Some(form.billing)
      && h.paymentMethod == Some(PaymentMethod("card", Payment.Last4(form.cardNumber), form.cardName))
      && h.totals == Some(Payment.CheckoutTotals(subtotal))
      && h.createdAt == EpochMs(nowMs / 1000 * 1000)
      && (nowMs >= 1000 ==> h.timestamp == nowMs / 1000)
  {
    var o := Payment.CheckoutRecord(intentId, cents, cart, form, nowMs, user, subtotal);
    Payment.CheckoutRecordFields(intentId, cents, cart, form, nowMs, user, subtotal);
    assert 0 <= nowMs / 1000 * 1000 <= nowMs;
    NormaliseAgreesWhenDated(o, userId, nowMs, suffix);
  }

  /**
   * A record saved by the order service appears in the history under the
   * id the save returned, with the caller's basket and amount, dated to the
   * second it was saved, shown as Delivered and kept by the 'delivered'
   * filter.
   */
  lemma ServiceRecordInHistory(orderData: StoredOrder, nowMs: nat, randomSuffix: string,
                               userId: string, suffix: string)
    requires nowMs <= MaxDateMs
    ensures var o := OrderService.LocalRecord(orderData, nowMs, randomSuffix);
      var h := Normalise(o, userId, nowMs, suffix);
      NormaliseAsWritten(o, userId, nowMs, suffix) == Some(h)
      && h.id == "order_" + randomSuffix
      && h.items == ItemsOrEmpty(orderData.basket) && h.totalAmount == AmountOrZero(orderData.amount)
      && h.createdAt == EpochMs(nowMs / 1000 * 1000)
      && h.status == "delivered" && GetStatusDisplay(h.status) == DeliveredDisplay
      && FilterByStatus([h], "delivered") == [h]
  {
    var o := OrderService.LocalRecord(orderData, nowMs, randomSuffix);
    assert 0 <= nowMs / 1000 * 1000 <= nowMs;
    NormaliseAgreesWhenDated(o, userId, nowMs, suffix);
    var h := Normalise(o, userId, nowMs, suffix);
    ToLowerOfLowercase("delivered");
    FilterOfOne(h, (o: HistoryOrder) => ToLower(o.status) == "delivered");
  }

  // ---------------------------------------------------------------------
  // Statistics
  // ---------------------------------------------------------------------

  datatype OrderStats = OrderStats(totalOrders: nat, totalSpent: real, avgOrder: real)

  /** `allOrders.reduce((sum, order) => sum + (order.amount || 0), 0)`, in cents. */
  function AmountSum(orders: seq<StoredOrder>): int {
    if orders == [] then 0
    else AmountSum(orders[..|orders| - 1]) + AmountOrZero(orders[|orders| - 1].amount)
  }

  /** `getOrderStats` over the stored list: count, dollars spent, and the average (0 for no orders). */
  function GetOrderStats(orders: seq<StoredOrder>): (s: OrderStats)
    ensures s.totalOrders == |orders|
    ensures s.totalSpent == AmountSum(orders) as real / 100.0
    ensures s.totalOrders > 0 ==> s.avgOrder * s.totalOrders as real == s.totalSpent
    ensures s.totalOrders == 0 ==> s.totalSpent == 0.0 && s.avgOrder == 0.0
  {
    var spent := AmountSum(orders) as real / 100.0;
    OrderStats(|orders|, spent, if |orders| > 0 then spent / |orders| as real else 0.0)
  }

  lemma {:induction false} AmountSumPrepend(o: StoredOrder, rest: seq<StoredOrder>)
    ensures AmountSum([o] + rest) == AmountOrZero(o.amount) + AmountSum(rest)
    decreases |rest|
  {
    if rest != [] {
      var init := rest[..|rest| - 1];
      AmountSumPrepend(o, init);
      assert ([o] + rest)[..|rest|] == [o] + init;
    }
  }

  /** A new order at the front adds one to the count and its amount to the total spent. */
  lemma StatsAfterPrepend(o: StoredOrder, rest: seq<StoredOrder>)
    ensures GetOrderStats([o] + rest).totalOrders == GetOrderStats(rest).totalOrders + 1
    ensures GetOrderStats([o] + rest).totalSpent == GetOrderStats(rest).totalSpent + AmountOrZero(o.amount) as real / 100.0
  {
    AmountSumPrepend(o, rest);
  }

  /** Creating a demo order adds $1299.97, its `amount`, to the total spent (not its $1727.96 total). */
  lemma DemoOrderStats(userId: string, idSuffix: string, nowMs: nat, random: real, rest: seq<StoredOrder>)
    requires 0.0 <= random < 1.0
    ensures var stats := GetOrderStats([DemoData.DemoOrder(userId, idSuffix, nowMs, random)] + rest);
      stats.totalOrders == |rest| + 1 && stats.totalSpent == GetOrderStats(rest).totalSpent + 1299.97
  {
    StatsAfterPrepend(DemoData.DemoOrder(userId, idSuffix, nowMs, random), rest);
  }

  // ---------------------------------------------------------------------
  // The page
  // ---------------------------------------------------------------------

  /** `expandedOrder === orderId ? null : orderId`. */
  function Toggled(expanded: Option<string>, orderId: string): (r: Option<string>)
    ensures expanded == Some(orderId) ==> r.None?
    ensures expanded != Some(orderId) ==> r == Some(orderId)
  {
    if expanded == Some(orderId) then None else Some(orderId)
  }

  /**
   * A toggle expands the order exactly when it was not expanded and never
   * expands another one; toggling the same order twice leaves it collapsed,
   * unless it was the expanded one to begin with.
   */
  lemma ToggleTwice(expanded: Option<string>, orderId: string, other: string)
    ensures Toggled(expanded, orderId) == Some(orderId) <==> expanded != Some(orderId)
    ensures other != orderId ==> Toggled(expanded, orderId) != Some(other)
    ensures Toggled(Toggled(expanded, orderId), orderId) == if expanded == Some(orderId) then Some(orderId) else None
  {
  }

  class OrdersPage {
    var orders: seq<HistoryOrder>
    var loading: bool
    /** The one expanded order's id, if any. */
    var expandedOrder: Option<string>
    var filterStatus: string
    var sortBy: string
    /** The signed-in user's id, if anyone is signed in. */
    const userId: Option<string>
    const store: LocalStorage

    constructor (userId: Option<string>, store: LocalStorage)
      ensures orders == [] && loading && expandedOrder.None?
      ensures filterStatus == "all" && sortBy == "newest"
      ensures this.userId == userId && this.store == store
    {
      orders := [];
      loading := true;
      expandedOrder := None;
      filterStatus := "all";
      sortBy := "newest";
      this.userId := userId;
      this.store := store;
    }

    /** What `loadOrders` fetches and filters for the signed-in user, before sorting. */
    function Listed(projectId: Option<string>, remote: RemoteQuery, nowMs: nat, suffix: nat -> string)
      : seq<HistoryOrder>
      requires userId.Some?
      reads this, store
    {
      FilterByStatus(FetchOrders(store.Read(OrdersKey(userId.value)), projectId, remote, userId.value, nowMs, suffix),
                     filterStatus)
    }

    /**
     * `loadOrders`: fetch, filter by status, then sort in place by the chosen
     * key. The result is the filtered list reordered, sorted by the key, and
     * left exactly as fetched when it already was (in particular for an
     * unknown `sortBy`). Without a user, reading `user.id` throws and the
     * list is emptied.
     */
    method LoadOrders(projectId: Option<string>, remote: RemoteQuery, nowMs: nat, suffix: nat -> string)
      modifies this
      ensures !loading
      ensures expandedOrder == old(expandedOrder) && filterStatus == old(filterStatus) && sortBy == old(sortBy)
      ensures userId.None? ==> orders == []
      ensures userId.Some? ==>
        multiset(orders) == multiset(Listed(projectId, remote, nowMs, suffix))
        && SortedBy(orders, SortKey(sortBy))
        && (SortedBy(Listed(projectId, remote, nowMs, suffix), SortKey(sortBy)) ==>
              orders == Listed(projectId, remote, nowMs, suffix))
    {
      loading := true;
      if userId.None? {
        orders := [];
        loading := false;
        return;
      }
      var fetched := Listed(projectId, remote, nowMs, suffix);
      var a := new HistoryOrder[|fetched|](i requires 0 <= i < |fetched| => fetched[i]);
      assert a[..] == fetched;
      SortInPlace(a, SortKey(sortBy));
      orders := a[..];
      loading := false;
    }

    /** `toggleOrderDetails`: collapse the expanded order, or expand another one in its place. */
    method ToggleOrderDetails(orderId: string)
      modifies this`expandedOrder
      ensures expandedOrder == Toggled(old(expandedOrder), orderId)
    {
      expandedOrder := Toggled(expandedOrder, orderId);
    }

    /** `getOrderStats`, over the list stored under `orders_${user?.id}`. */
    function Stats(): OrderStats
      reads store
    {
      GetOrderStats(store.Read(OrdersKey(OrderService.TemplateText(userId))))
    }

    /** `handleCreateDemoOrder`: with a user, a demo order goes to the front of their list and the list is reloaded. */
    method HandleCreateDemoOrder(idSuffix: string, random: real, projectId: Option<string>, remote: RemoteQuery,
                                 nowMs: nat, suffix: nat -> string)
      requires 0.0 <= random < 1.0
      modifies this, store
      ensures userId.None? ==> orders == old(orders) && store.orderLists == old(store.orderLists)
      ensures userId.Some? ==>
        store.Read(OrdersKey(userId.value)) ==
          [DemoData.DemoOrder(userId.value, idSuffix, nowMs, random)] + old(store.Read(OrdersKey(userId.value)))
        && multiset(orders) == multiset(Listed(projectId, remote, nowMs, suffix))
        && SortedBy(orders, SortKey(sortBy))
      ensures userId.Some? ==>
        forall k :: k != OrdersKey(userId.value) ==> store.Read(k) == old(store.Read(k))
      ensures store.lastOrder == old(store.lastOrder)
      ensures expandedOrder == old(expandedOrder) && filterStatus == old(filterStatus) && sortBy == old(sortBy)
    {
      if userId.Some? {
        var _ := DemoData.CreateDemoOrder(store, userId.value, idSuffix, nowMs, random);
        LoadOrders(projectId, remote, nowMs, suffix);
      }
    }

    /** `handleClearOrders`: with a user, their list is removed and the page shows no orders. */
    method HandleClearOrders()
      modifies this, store
      ensures userId.Some? ==> orders == [] && store.Read(OrdersKey(userId.value)) == []
      ensures userId.None? ==> orders == old(orders) && store.orderLists == old(store.orderLists)
      ensures userId.Some? ==>
        forall k :: k != OrdersKey(userId.value) ==> store.Read(k) == old(store.Read(k))
      ensures store.lastOrder == old(store.lastOrder)
      ensures loading == old(loading) && expandedOrder == old(expandedOrder)
      ensures filterStatus == old(filterStatus) && sortBy == old(sortBy)
    {
      if userId.Some? {
        DemoData.ClearDemoOrders(store, userId.value);
        orders := [];
      }
    }
  }
}
