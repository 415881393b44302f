/**
 * The browser's localStorage as the storefront uses it: the key
 * `orders_<userId>` holds a JSON array of order records (newest first), and
 * the key `lastOrder` holds the most recent checkout's record. The stored
 * JSON text is represented by its parsed value.
 */
module LocalStore {
  import opened JsText
  import opened Records

  /** The key of a user's order list, `orders_${userId}`. */
  function OrdersKey(userId: string): (k: string)
    ensures k != "lastOrder"
  {
    var k := "orders_" + userId;
    assert k[1] != "lastOrder"[1];
    k
  }

  /** Different users have different keys. */
  lemma OrdersKeyInjective(u: string, v: string)
    requires OrdersKey(u) == OrdersKey(v)
    ensures u == v
  {
    assert u == OrdersKey(u)[7..];
  }

  class LocalStorage {
    /** The parsed value of every `orders_<userId>` key that is present. */
    var orderLists: map<string, seq<StoredOrder>>
    /** The parsed value of the `lastOrder` key, if present. */
    var lastOrder: Option<StoredOrder>

    constructor ()
      ensures orderLists == map[] && lastOrder == None
    {
      orderLists := map[];
      lastOrder := None;
    }

    /** `JSON.parse(localStorage.getItem(key) || '[]')`: an absent key reads as the empty list. */
    function Read(key: string): (r: seq<StoredOrder>)
      reads this
      ensures key !in orderLists ==> r == []
      ensures key in orderLists ==> r == orderLists[key]
    {
      if key in orderLists then orderLists[key] else []
    }

    /** `localStorage.setItem(key, JSON.stringify(orders))`. */
    method Write(key: string, orders: seq<StoredOrder>)
      modifies this
      ensures orderLists == old(orderLists)[key := orders]
      ensures lastOrder == old(lastOrder)
    {
      orderLists := orderLists[key := orders];
    }

    /** `localStorage.removeItem(key)`. */
    method Remove(key: string)
      modifies this
      ensures orderLists == old(orderLists) - {key}
      ensures lastOrder == old(lastOrder)
    {
      orderLists := orderLists - {key};
    }

    /** `localStorage.setItem('lastOrder', JSON.stringify(order))`. */
    method SetLastOrder(order: StoredOrder)
      modifies this
      ensures lastOrder == Some(order)
      ensures orderLists == old(orderLists)
    {
      lastOrder := Some(order);
    }

    /**
     * The read, `unshift` and write-back that every writer performs:
     * `order` goes to index 0 and the previous list follows in order.
     */
    method Prepend(key: string, order: StoredOrder)
      modifies this
      ensures orderLists == old(orderLists)[key := [order] + old(Read(key))]
      ensures lastOrder == old(lastOrder)
      ensures Read(key)[0] == order && Read(key)[1..] == old(Read(key))
    {
      var existing := Read(key);
      existing := [order] + existing;
      Write(key, existing);
    }
  }
}
