/**
 * The mock order repository: one module-level list of orders, read by the
 * getters and changed in place by create, update and delete.
 */
module Orders {
  import opened Wrappers
  import opened Seqs
  import opened Entities

  function OrderIds(orders: seq<Order>): (r: seq<int>)
    ensures |r| == |orders| && forall i :: 0 <= i < |orders| ==> r[i] == orders[i].id
  {
    seq(|orders|, i requires 0 <= i < |orders| => orders[i].id)
  }

  /** The stored order for `data` under `id`; the order and delivery dates are not modelled. */
  function NewOrder(id: int, data: OrderData): Order {
    Order(id, data.items, data.total, data.deliveryAddress, data.paymentMethod, data.status)
  }

  class OrderBook {
    var orders: seq<Order>

    constructor (initial: seq<Order>)
      ensures orders == initial
    {
      orders := initial;
    }

    /** `getOrderById`: a copy of the first order with that `Id`, or `null`. */
    function OrderById(id: int): (r: Option<Order>)
      reads this
      ensures r.None? <==> !HasKey(orders, OrderId, id)
      ensures r.Some? ==> exists i :: (0 <= i < |orders| && orders[i] == r.value && r.value.id == id
        && forall j :: 0 <= j < i ==> orders[j].id != id)
    {
      match IndexOfKey(orders, OrderId, id)
      case None => None
      case Some(i) => Some(orders[i])
    }

    /** `getOrdersByStatus`: exactly the orders with that status, in stored order. */
    function OrdersByStatus(status: string): (r: seq<Order>)
      reads this
      ensures IsSubsequence(r, orders)
      ensures forall o {:trigger multiset(r)[o]} :: multiset(r)[o] == if o.status == status then multiset(orders)[o] else 0
      ensures forall o :: o in r <==> o in orders && o.status == status
    {
      var r := WithKey(orders, OrderStatus, status);
      assert forall o :: o in r <==> o in multiset(r);
      r
    }

    /** `createOrder(data)`: the new `Id` is one more than the largest `Id` and 0. */
    method CreateOrder(data: OrderData) returns (r: Order)
      modifies this
      ensures r == NewOrder(NextId(OrderIds(old(orders))), data)
      ensures orders == old(orders) + [r]
      ensures old(orders) == [] ==> r.id == 1
      ensures UniqueKeys(old(orders), OrderId) ==> UniqueKeys(orders, OrderId)
    {
      var ids := OrderIds(orders);
      r := NewOrder(NextId(ids), data);
      assert forall i :: 0 <= i < |orders| ==> OrderId(orders[i]) == ids[i] < r.id;
      orders := orders + [r];
    }

    /** `updateOrder(id, updates)`: the first match is merged in place; an absent `Id` changes nothing. */
    method UpdateOrder(id: int, updates: OrderPatch) returns (r: Option<Order>)
      modifies this
      ensures r.None? <==> !HasKey(old(orders), OrderId, id)
      ensures r.None? ==> orders == old(orders)
      ensures r.Some? ==> var i := IndexOfKey(old(orders), OrderId, id).value;
        orders == old(orders)[i := MergeOrder(old(orders)[i], updates)] && r == Some(orders[i])
    {
      var index := IndexOfKey(orders, OrderId, id);
      if index.None? {
        return None;
      }
      orders := orders[index.value := MergeOrder(orders[index.value], updates)];
      r := Some(orders[index.value]);
    }

    /** `deleteOrder(id)`: the first match is spliced out and `true` returned; otherwise `false`. */
    method DeleteOrder(id: int) returns (r: bool)
      modifies this
      ensures r <==> HasKey(old(orders), OrderId, id)
      ensures !r ==> orders == old(orders)
      ensures r ==> orders == RemoveAt(old(orders), IndexOfKey(old(orders), OrderId, id).value)
      ensures r && UniqueKeys(old(orders), OrderId) ==> orders == WithoutKey(old(orders), OrderId, id)
    {
      var index := IndexOfKey(orders, OrderId, id);
      if index.None? {
        return false;
      }
      if UniqueKeys(orders, OrderId) {
        RemoveFirstIsWithoutKey(orders, OrderId, id);
      }
      orders := RemoveAt(orders, index.value);
      r := true;
    }
  }
}
