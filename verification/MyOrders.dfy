/** The orders of the local user: adding, cancelling, locking while somebody takes them. */
module OwnOrders {
  import opened Amounts
  import opened Orders
  import opened Wrappers

  type OrderMap = map<UInt64, Order>

  /** The stored form of an added order. */
  function Stored(o: Order): Order {
    o.(account := None, id := None)
  }

  /** Dropping what is no longer valid. */
  function Refreshed(orders: OrderMap, valid: Order -> bool): OrderMap {
    map id | id in orders && valid(orders[id]) :: orders[id]
  }

  predicate CanLock(orders: OrderMap, id: UInt64) {
    id in orders && !orders[id].locked
  }

  function Locked(orders: OrderMap, id: UInt64): OrderMap
    requires id in orders
  {
    orders[id := orders[id].(locked := true)]
  }

  /** What the taker of an order is matched against: the order before it was locked. */
  function Copy(account: string, id: UInt64, o: Order): Order {
    o.(account := Some(account), id := Some(id))
  }

  predicate CanUnlock(orders: OrderMap, id: UInt64) {
    id in orders && orders[id].locked
  }

  function Unlocked(orders: OrderMap, id: UInt64): OrderMap
    requires id in orders
  {
    orders[id := orders[id].(locked := false)]
  }

  /** The orders that are announced to everybody else. */
  function Visible(orders: OrderMap, includeLocked: bool): OrderMap {
    map id | id in orders && (includeLocked || !orders[id].locked) :: orders[id]
  }

  class MyOrders {
    const account: string
    const valid: Order -> bool
    var orders: OrderMap
    var nextFreeId: nat

    /** The next identifier is a 64-bit number, which wraps around. */
    ghost predicate Valid()
      reads this
    {
      nextFreeId < TWO_64
    }

    /** Identifiers are handed out in order: those in use lie below the next one. */
    ghost predicate InOrder()
      reads this
    {
      forall id :: id in orders ==> id < nextFreeId
    }

    constructor (a: string, v: Order -> bool)
      ensures Valid() && InOrder() && account == a && valid == v && orders == map[] && nextFreeId == 0
    {
      account, valid := a, v;
      orders, nextFreeId := map[], 0;
    }

    method RunRefresh()
      requires Valid()
      modifies this
      ensures Valid() && nextFreeId == old(nextFreeId) && orders == Refreshed(old(orders), valid)
      ensures forall id :: id in orders <==> id in old(orders) && valid(old(orders)[id])
      ensures forall id :: id in orders ==> orders[id] == old(orders)[id]
      ensures old(InOrder()) ==> InOrder()
    {
      var updated: OrderMap := map[];
      var todo := orders.Keys;
      while todo != {}
        invariant todo <= orders.Keys
        invariant forall id :: id in updated <==> id in orders && id !in todo && valid(orders[id])
        invariant forall id :: id in updated ==> updated[id] == orders[id]
      {
        var id :| id in todo;
        todo := todo - {id};
        if valid(orders[id]) {
          updated := updated[id := orders[id]];
        }
      }
      orders := updated;
    }

    /** Adds a valid order under the next identifier, which is fresh until identifiers have wrapped around. */
    method Add(o: Order) returns (added: bool)
      requires Valid()
      modifies this
      ensures Valid() && (added <==> valid(o))
      ensures !added ==> orders == old(orders) && nextFreeId == old(nextFreeId)
      ensures added ==> nextFreeId == (old(nextFreeId) + 1) % TWO_64
                        && orders == Refreshed(old(orders)[old(nextFreeId) := Stored(o)], valid)
      ensures old(InOrder()) ==> old(nextFreeId) !in old(orders)
      ensures old(InOrder()) && old(nextFreeId) + 1 < TWO_64 ==> InOrder()
    {
      if !valid(o) {
        return false;
      }
      var id := nextFreeId;
      nextFreeId := (id + 1) % TWO_64;
      orders := orders[id := Stored(o)];
      RunRefresh();
      added := true;
    }

    method RemoveById(id: UInt64)
      requires Valid()
      modifies this
      ensures Valid() && nextFreeId == old(nextFreeId) && orders == Refreshed(old(orders) - {id}, valid)
      ensures old(InOrder()) ==> InOrder()
    {
      orders := orders - {id};
      RunRefresh();
    }

    /** Locks an order that is there and free, and hands out a copy of it. Only one of two takers can succeed. */
    method TryLock(id: UInt64) returns (out: Option<Order>)
      requires Valid()
      modifies this
      ensures Valid() && nextFreeId == old(nextFreeId)
      ensures out.Some? <==> CanLock(old(orders), id)
      ensures out.Some? ==> out.value == Copy(account, id, old(orders)[id]) && !out.value.locked
                            && orders == Refreshed(Locked(old(orders), id), valid) && !CanLock(orders, id)
      ensures out.None? ==> orders == old(orders)
      ensures old(InOrder()) ==> InOrder()
    {
      if id !in orders {
        return None;
      }
      if orders[id].locked {
        return None;
      }
      out := Some(Copy(account, id, orders[id]));
      orders := orders[id := orders[id].(locked := true)];
      RunRefresh();
    }

    /** Makes an order available again. That it is there and locked is CHECKed. */
    method Unlock(id: UInt64)
      requires Valid() && CanUnlock(orders, id)
      modifies this
      ensures Valid() && nextFreeId == old(nextFreeId)
      ensures orders == Refreshed(Unlocked(old(orders), id), valid)
      ensures old(InOrder()) ==> InOrder()
    {
      orders := orders[id := orders[id].(locked := false)];
      RunRefresh();
    }

    method InternalGetOrders(includeLocked: bool) returns (res: OrderMap)
      ensures res == Visible(orders, includeLocked)
      ensures forall id :: id in res <==> id in orders && (includeLocked || !orders[id].locked)
      ensures forall id :: id in res ==> res[id] == orders[id]
    {
      res := map[];
      var todo := orders.Keys;
      while todo != {}
        invariant todo <= orders.Keys
        invariant forall id :: id in res <==> id in orders && id !in todo && (includeLocked || !orders[id].locked)
        invariant forall id :: id in res ==> res[id] == orders[id]
      {
        var id :| id in todo;
        todo := todo - {id};
        if includeLocked || !orders[id].locked {
          res := res[id := orders[id]];
        }
      }
    }
  }
}
