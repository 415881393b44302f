/**
 * The order service: saving an order to Firestore or, when Firestore is not
 * configured or the remote write throws, to the local order list; and the
 * two reads, one order by id and all of a user's orders. The remote calls
 * are oracles whose outcome is a parameter.
 */
module OrderService {
  import opened JsText
  import opened Records
  import opened LocalStore

  /** The outcome of the remote `addDoc` (including the dynamic imports before it). */
  datatype RemoteWrite = Written(docId: string) | WriteThrew(message: string)

  /** The outcome of the remote `getDoc`. */
  datatype RemoteRead = DocFound(order: StoredOrder) | DocMissing | ReadThrew(message: string)

  /** The outcome of the remote `getDocs` query. */
  datatype RemoteList = Listed(orders: seq<StoredOrder>) | ListThrew(message: string)

  /** `{success: true, orderId, isFirestore}` or `{success: false, error}`. */
  datatype SaveResult = Saved(orderId: string, isFirestore: bool) | SaveFailed(error: string)

  /** `{success: true, order}` or `{success: false, error}`. */
  datatype OrderResult = OrderFound(order: StoredOrder) | OrderError(error: string)

  /** `{success, orders}`, with `error` set when the remote query threw. */
  datatype OrdersResult = OrdersResult(success: bool, orders: seq<StoredOrder>, error: Option<string>)

  const PlaceholderProjectId := "your-project-id"

  /**
   * `!REACT_APP_FIREBASE_PROJECT_ID || REACT_APP_FIREBASE_PROJECT_ID === 'your-project-id'`:
   * the variable is missing, empty, or still the placeholder.
   */
  predicate UsesLocalStore(projectId: Option<string>) {
    projectId.None? || projectId.value == "" || projectId.value == PlaceholderProjectId
  }

  /** A value interpolated into a template literal: an absent `userId` becomes "undefined". */
  function TemplateText(s: Option<string>): string {
    if s.Some? then s.value else "undefined"
  }

  /**
   * The record `saveOrderToLocalStorage` stores: the caller's fields with
   * `created`, `status`, `paymentStatus` and `id` overridden.
   */
  function LocalRecord(orderData: StoredOrder, nowMs: nat, randomSuffix: string): (r: StoredOrder)
    ensures r.status == Some("delivered") && r.paymentStatus == Some("paid")
    ensures r.id == Some("order_" + randomSuffix) && r.created == Some(nowMs / 1000)
    ensures r.userId == orderData.userId && r.amount == orderData.amount && r.basket == orderData.basket
    ensures r.address == orderData.address && r.totals == orderData.totals
    ensures r.paymentMethod == orderData.paymentMethod
  {
    orderData.(created := Some(nowMs / 1000), status := Some("delivered"),
               paymentStatus := Some("paid"), id := Some("order_" + randomSuffix))
  }

  /** `orders.find(o => o.id === orderId)`: the first record whose id matches. */
  function FindById(orders: seq<StoredOrder>, orderId: string): (r: Option<StoredOrder>)
    ensures r.None? <==> forall i :: 0 <= i < |orders| ==> orders[i].id != Some(orderId)
    ensures forall k :: (0 <= k < |orders| && orders[k].id == Some(orderId)
      && forall i :: 0 <= i < k ==> orders[i].id != Some(orderId)) ==> r == Some(orders[k])
  {
    if orders == [] then None
    else if orders[0].id == Some(orderId) then Some(orders[0])
    else
      var r := FindById(orders[1..], orderId);
      assert forall k :: 1 <= k < |orders| ==> orders[k] == orders[1..][k - 1];
      r
  }

  /**
   * `saveOrderToLocalStorage`: the new record goes to the front of the
   * user's list and its fresh id is returned. `storageError` is the message
   * of an exception from parsing or writing the list; the store is then
   * unchanged and the failure is returned instead of thrown.
   */
  method SaveOrderToLocalStorage(store: LocalStorage, orderData: StoredOrder, nowMs: nat,
                                 randomSuffix: string, storageError: Option<string>)
    returns (r: SaveResult)
    modifies store
    ensures storageError.Some? ==>
      r == SaveFailed(storageError.value) && store.orderLists == old(store.orderLists)
    ensures storageError.None? ==>
      r == Saved("order_" + randomSuffix, false)
      && store.orderLists == old(store.orderLists)[OrdersKey(TemplateText(orderData.userId)) :=
           [LocalRecord(orderData, nowMs, randomSuffix)] + old(store.Read(OrdersKey(TemplateText(orderData.userId))))]
    ensures store.lastOrder == old(store.lastOrder)
    ensures r.Saved? ==>
      FindById(store.Read(OrdersKey(TemplateText(orderData.userId))), r.orderId)
      == Some(LocalRecord(orderData, nowMs, randomSuffix))
  {
    if storageError.Some? {
      return SaveFailed(storageError.value);
    }
    var order := LocalRecord(orderData, nowMs, randomSuffix);
    var key := OrdersKey(TemplateText(orderData.userId));
    store.Prepend(key, order);
    r := Saved(order.id.value, false);
  }

  /**
   * `saveOrder`: the local store when Firestore is not configured; otherwise
   * the remote write, falling back to the local store with the same
   * `orderData` when the remote write throws.
   */
  method SaveOrder(store: LocalStorage, projectId: Option<string>, remote: RemoteWrite,
                   orderData: StoredOrder, nowMs: nat, randomSuffix: string, storageError: Option<string>)
    returns (r: SaveResult)
    modifies store
    ensures !UsesLocalStore(projectId) && remote.Written? ==>
      r == Saved(remote.docId, true) && store.orderLists == old(store.orderLists)
    ensures (UsesLocalStore(projectId) || remote.WriteThrew?) && storageError.None? ==>
      r == Saved("order_" + randomSuffix, false)
      && store.orderLists == old(store.orderLists)[OrdersKey(TemplateText(orderData.userId)) :=
           [LocalRecord(orderData, nowMs, randomSuffix)] + old(store.Read(OrdersKey(TemplateText(orderData.userId))))]
    ensures (UsesLocalStore(projectId) || remote.WriteThrew?) && storageError.Some? ==>
      r == SaveFailed(storageError.value) && store.orderLists == old(store.orderLists)
    ensures r.Saved? ==> (r.isFirestore <==> !UsesLocalStore(projectId) && remote.Written?)
    ensures store.lastOrder == old(store.lastOrder)
  {
    if UsesLocalStore(projectId) {
      r := SaveOrderToLocalStorage(store, orderData, nowMs, randomSuffix, storageError);
      return;
    }
    match remote {
      case Written(docId) =>
        r := Saved(docId, true);
      case WriteThrew(_) =>
        r := SaveOrderToLocalStorage(store, orderData, nowMs, randomSuffix, storageError);
    }
  }

  /**
   * `getOrder`: locally, the first record of the user's list with that id;
   * remotely, the document or "Order not found"; a thrown error becomes its message.
   */
  method GetOrder(store: LocalStorage, projectId: Option<string>, remote: RemoteRead,
                  orderId: string, userId: string)
    returns (r: OrderResult)
    ensures UsesLocalStore(projectId) ==>
      match FindById(store.Read(OrdersKey(userId)), orderId)
      case Some(o) => r == OrderFound(o)
      case None => r == OrderError("Order not found")
    ensures !UsesLocalStore(projectId) ==>
      match remote
      case DocFound(o) => r == OrderFound(o)
      case DocMissing => r == OrderError("Order not found")
      case ReadThrew(m) => r == OrderError(m)
  {
    if UsesLocalStore(projectId) {
      var found := FindById(store.Read(OrdersKey(userId)), orderId);
      r := if found.Some? then OrderFound(found.value) else OrderError("Order not found");
      return;
    }
    match remote {
      case DocFound(o) => r := OrderFound(o);
      case DocMissing => r := OrderError("Order not found");
      case ReadThrew(m) => r := OrderError(m);
    }
  }

  /**
   * `getUserOrders`: locally, the stored list exactly as stored (empty when
   * the key is absent); remotely, the query's list, or an empty list with
   * the error when it throws.
   */
  method GetUserOrders(store: LocalStorage, projectId: Option<string>, remote: RemoteList, userId: string)
    returns (r: OrdersResult)
    ensures UsesLocalStore(projectId) ==> r == OrdersResult(true, store.Read(OrdersKey(userId)), None)
    ensures UsesLocalStore(projectId) && OrdersKey(userId) !in store.orderLists ==> r.orders == []
    ensures !UsesLocalStore(projectId) && remote.Listed? ==> r == OrdersResult(true, remote.orders, None)
    ensures !UsesLocalStore(projectId) && remote.ListThrew? ==>
      r == OrdersResult(false, [], Some(remote.message))
  {
    if UsesLocalStore(projectId) {
      r := OrdersResult(true, store.Read(OrdersKey(userId)), None);
      return;
    }
    match remote {
      case Listed(orders) => r := OrdersResult(true, orders, None);
      case ListThrew(m) => r := OrdersResult(false, [], Some(m));
    }
  }

  /**
   * Saving locally and then looking the returned id up for the same user
   * finds the new record, whatever the list held before.
   */
  method SaveThenGet(store: LocalStorage, projectId: Option<string>, remote: RemoteWrite,
                     remoteRead: RemoteRead, orderData: StoredOrder, userId: string,
                     nowMs: nat, randomSuffix: string)
    returns (saved: SaveResult, fetched: OrderResult)
    requires UsesLocalStore(projectId) && orderData.userId == Some(userId)
    modifies store
    ensures saved == Saved("order_" + randomSuffix, false)
    ensures fetched == OrderFound(LocalRecord(orderData, nowMs, randomSuffix))
    ensures store.Read(OrdersKey(userId)) ==
      [LocalRecord(orderData, nowMs, randomSuffix)] + old(store.Read(OrdersKey(userId)))
  {
    saved := SaveOrder(store, projectId, remote, orderData, nowMs, randomSuffix, None);
    fetched := GetOrder(store, projectId, remoteRead, saved.orderId, userId);
  }
}
