/**
 * The orders admin page: each order item is expanded into single-unit
 * instances, each flagged out of stock or not; the order's totals and the
 * refund are sums over those instances; the admin toggles the flag of an
 * order item (only on pending orders) and changes an order's status.
 *
 * The page's state (`orders`, `outOfStockInstances`) is a `PageState`
 * object. The order items are keyed by their own `order_item` id.
 */
module OrdersPage {
  import opened Wrappers
  import opened Rows
  import OrderActions

  const Pending: string := "pending"

  /** An order as the page holds it: its row with its items and their products. */
  datatype OrderView = OrderView(row: OrderRow, orderItems: seq<OrderItem>)

  /**
   * One single-unit instance of an order item (`OrderedProduct`); `copy` is
   * its position among the instances of its item, which the render uses in
   * `unique_instance_id`.
   */
  datatype Instance = Instance(
    orderItemId: int,
    orderId: int,
    product: Product,
    isOutOfStock: bool,
    quantity: int,
    copy: nat)

  // ---------------------------------------------------------------------
  // Instance expansion

  /** The length of `Array.from({ length: quantity || 1 })`: 0 becomes 1, a negative length 0. */
  function InstanceCount(quantity: int): nat
  {
    if quantity == 0 then 1 else if quantity < 0 then 0 else quantity
  }

  /** An order item is out of stock when the admin marked it or its product is marked. */
  predicate ItemOutOfStock(item: OrderItem, outOfStock: set<int>)
  {
    item.id in outOfStock || item.product.isOutOfStock
  }

  function ItemInstances(orderId: int, item: OrderItem, outOfStock: set<int>): (r: seq<Instance>)
    ensures item.quantity > 0 ==> |r| == item.quantity
    ensures item.quantity == 0 ==> |r| == 1
    ensures item.quantity < 0 ==> r == []
    ensures forall k :: 0 <= k < |r| ==> r[k].quantity == 1
    ensures forall k :: 0 <= k < |r| ==> r[k].copy == k
    ensures forall k :: 0 <= k < |r| ==> r[k].orderItemId == item.id && r[k].orderId == orderId && r[k].product == item.product
    ensures forall k :: 0 <= k < |r| ==> (r[k].isOutOfStock <==> item.id in outOfStock || item.product.isOutOfStock)
  {
    seq(InstanceCount(item.quantity), k requires 0 <= k < InstanceCount(item.quantity) =>
      Instance(item.id, orderId, item.product, item.id in outOfStock || item.product.isOutOfStock, 1, k))
  }

  /** `order.order_items.flatMap(...)`: the instances of every item, item by item. */
  function Instances(orderId: int, items: seq<OrderItem>, outOfStock: set<int>): (r: seq<Instance>)
    ensures |r| == UnitCount(items)
    ensures forall i :: 0 <= i < |r| ==> r[i].quantity == 1 && r[i].orderId == orderId
  {
    if items == [] then []
    else ItemInstances(orderId, items[0], outOfStock) + Instances(orderId, items[1..], outOfStock)
  }

  /** The number of units the items add up to. */
  function UnitCount(items: seq<OrderItem>): nat
  {
    if items == [] then 0 else InstanceCount(items[0].quantity) + UnitCount(items[1..])
  }

  /**
   * Every instance is a single unit of one of the items, its flag is the
   * item's flag, and there are as many instances as units.
   */
  lemma {:induction false} InstancesShape(orderId: int, items: seq<OrderItem>, outOfStock: set<int>)
    ensures var r := Instances(orderId, items, outOfStock);
      && |r| == UnitCount(items)
      && forall i :: 0 <= i < |r| ==>
        && r[i].quantity == 1 && r[i].orderId == orderId
        && (r[i].isOutOfStock <==> r[i].orderItemId in outOfStock || r[i].product.isOutOfStock)
        && exists j :: 0 <= j < |items| && r[i].orderItemId == items[j].id && r[i].product == items[j].product
  {
    if items != [] {
      InstancesShape(orderId, items[1..], outOfStock);
      var head := ItemInstances(orderId, items[0], outOfStock);
      var rest := Instances(orderId, items[1..], outOfStock);
      var r := head + rest;
      forall i | 0 <= i < |r|
        ensures exists j :: 0 <= j < |items| && r[i].orderItemId == items[j].id && r[i].product == items[j].product
      {
        if i < |head| {
          assert r[i] == head[i];
        } else {
          assert r[i] == rest[i - |head|];
          var j :| 0 <= j < |items[1..]| && rest[i - |head|].orderItemId == items[1..][j].id
                   && rest[i - |head|].product == items[1..][j].product;
          assert items[1..][j] == items[j + 1];
        }
      }
    }
  }

  ghost predicate DistinctItemIds(items: seq<OrderItem>)
  {
    forall a, b :: 0 <= a < b < |items| ==> items[a].id != items[b].id
  }

  /**
   * When the order's items have distinct ids (they are `order_item` rows),
   * all instances of one item share one out-of-stock flag, and the render's
   * keys `${order_item_id}-${index}` are unique.
   */
  lemma {:induction false} InstancesOfOneItemAgree(orderId: int, items: seq<OrderItem>, outOfStock: set<int>)
    requires DistinctItemIds(items)
    ensures var r := Instances(orderId, items, outOfStock);
      forall a, b :: 0 <= a < |r| && 0 <= b < |r| && r[a].orderItemId == r[b].orderItemId ==>
        r[a].isOutOfStock == r[b].isOutOfStock && (a != b ==> r[a].copy != r[b].copy)
  {
    var r := Instances(orderId, items, outOfStock);
    if items != [] {
      var head := ItemInstances(orderId, items[0], outOfStock);
      var rest := Instances(orderId, items[1..], outOfStock);
      assert DistinctItemIds(items[1..]) by {
        forall a, b | 0 <= a < b < |items[1..]| ensures items[1..][a].id != items[1..][b].id {
          assert items[1..][a] == items[a + 1] && items[1..][b] == items[b + 1];
        }
      }
      InstancesOfOneItemAgree(orderId, items[1..], outOfStock);
      InstancesShape(orderId, items[1..], outOfStock);
      // an instance of a later item never carries the first item's id
      forall i | 0 <= i < |rest| ensures rest[i].orderItemId != items[0].id {
        var j :| 0 <= j < |items[1..]| && rest[i].orderItemId == items[1..][j].id;
        assert items[1..][j] == items[j + 1];
      }
      forall a, b | 0 <= a < |r| && 0 <= b < |r| && r[a].orderItemId == r[b].orderItemId
        ensures r[a].isOutOfStock == r[b].isOutOfStock && (a != b ==> r[a].copy != r[b].copy)
      {
        if a < |head| && b < |head| {
          assert r[a] == head[a] && r[b] == head[b];
        } else if a >= |head| && b >= |head| {
          assert r[a] == rest[a - |head|] && r[b] == rest[b - |head|];
        } else {
          // one of them is an instance of the first item, the other of a later one
          assert false;
        }
      }
    }
  }

  // ---------------------------------------------------------------------
  // Totals: the reducers over the instances, left to right

  /** `totalPrice`: the prices of the instances that are in stock. */
  function TotalPrice(s: seq<Instance>): (r: int)
    // nothing out of stock: the full price is charged; everything out of stock: nothing is
    ensures (forall i :: 0 <= i < |s| ==> !s[i].isOutOfStock) ==> r == PriceSum(s)
    ensures (forall i :: 0 <= i < |s| ==> s[i].isOutOfStock) ==> r == 0
  {
    if s == [] then 0
    else TotalPrice(s[..|s| - 1]) + (if s[|s| - 1].isOutOfStock then 0 else s[|s| - 1].product.price)
  }

  /** `refunded_amount`: the prices of the instances that are out of stock. */
  function RefundedAmount(s: seq<Instance>): (r: int)
    // nothing out of stock: no refund; everything out of stock: the full price is refunded
    ensures (forall i :: 0 <= i < |s| ==> !s[i].isOutOfStock) ==> r == 0
    ensures (forall i :: 0 <= i < |s| ==> s[i].isOutOfStock) ==> r == PriceSum(s)
  {
    if s == [] then 0
    else RefundedAmount(s[..|s| - 1]) + (if s[|s| - 1].isOutOfStock then s[|s| - 1].product.price else 0)
  }

  /** `remainingProducts`: the quantities of the instances that are in stock. */
  function RemainingProducts(s: seq<Instance>): (r: int)
    ensures (forall i :: 0 <= i < |s| ==> s[i].isOutOfStock) ==> r == 0
    ensures (forall i :: 0 <= i < |s| ==> !s[i].isOutOfStock && s[i].quantity == 1) ==> r == |s|
  {
    if s == [] then 0
    else RemainingProducts(s[..|s| - 1]) + (if !s[|s| - 1].isOutOfStock then s[|s| - 1].quantity else 0)
  }

  /** `refundedFunds`: price times quantity of the instances that are out of stock. */
  function RefundedFunds(s: seq<Instance>): (r: int)
    ensures (forall i :: 0 <= i < |s| ==> !s[i].isOutOfStock) ==> r == 0
    ensures (forall i :: 0 <= i < |s| ==> s[i].isOutOfStock && s[i].quantity == 1) ==> r == PriceSum(s)
  {
    if s == [] then 0
    else
      var last := s[|s| - 1];
      RefundedFunds(s[..|s| - 1]) + (if last.isOutOfStock then last.product.price * last.quantity else 0)
  }

  /** The price of every instance, in stock or not. */
  function PriceSum(s: seq<Instance>): int
  {
    if s == [] then 0 else PriceSum(s[..|s| - 1]) + s[|s| - 1].product.price
  }

  ghost function InStock(s: seq<Instance>): set<int>
  {
    set i | 0 <= i < |s| && !s[i].isOutOfStock
  }

  /** What stays charged and what is refunded add up to the price of all instances. */
  lemma {:induction false} TotalsPartitionPrice(s: seq<Instance>)
    ensures TotalPrice(s) + RefundedAmount(s) == PriceSum(s)
  {
    if s != [] {
      TotalsPartitionPrice(s[..|s| - 1]);
    }
  }

  /** One more instance adds its own index to the in-stock set when it is in stock. */
  lemma InStockSnoc(s: seq<Instance>)
    requires s != []
    ensures var n := |s| - 1;
      InStock(s) == InStock(s[..n]) + (if s[n].isOutOfStock then {} else {n})
  {
    var n := |s| - 1;
    assert forall i :: 0 <= i < n ==> s[..n][i] == s[i];
  }

  /**
   * Since every instance is a single unit, `remainingProducts` is the number
   * of in-stock instances and `refundedFunds` is `refunded_amount`.
   */
  lemma {:induction false} SingleUnitCounts(s: seq<Instance>)
    requires forall i :: 0 <= i < |s| ==> s[i].quantity == 1
    ensures RemainingProducts(s) == |InStock(s)|
    ensures RefundedFunds(s) == RefundedAmount(s)
  {
    if s != [] {
      var n := |s| - 1;
      var p := s[..n];
      SingleUnitCounts(p);
      InStockSnoc(s);
      assert n !in InStock(p);
    }
  }

  lemma {:induction false} TotalsAppend(a: seq<Instance>, b: seq<Instance>)
    ensures TotalPrice(a + b) == TotalPrice(a) + TotalPrice(b)
    ensures RefundedAmount(a + b) == RefundedAmount(a) + RefundedAmount(b)
  {
    if b != [] {
      var n := |b| - 1;
      assert (a + b)[..|a + b| - 1] == a + b[..n];
      assert (a + b)[|a + b| - 1] == b[n];
      TotalsAppend(a, b[..n]);
    } else {
      assert a + b == a;
    }
  }

  /** n instances of one price cost n times that price. */
  lemma {:induction false} UniformPriceSum(s: seq<Instance>, price: int)
    requires forall i :: 0 <= i < |s| ==> s[i].product.price == price
    ensures PriceSum(s) == |s| * price
  {
    if s != [] {
      var p := s[..|s| - 1];
      UniformPriceSum(p, price);
      assert PriceSum(s) == |p| * price + price;
      assert (|p| + 1) * price == |p| * price + price;
    }
  }

  /** n single units of one product with one flag. */
  lemma UniformTotals(s: seq<Instance>, price: int, outOfStock: bool)
    requires forall i :: 0 <= i < |s| ==> s[i].product.price == price && s[i].isOutOfStock == outOfStock
    ensures TotalPrice(s) == if outOfStock then 0 else |s| * price
    ensures RefundedAmount(s) == if outOfStock then |s| * price else 0
  {
    UniformPriceSum(s, price);
  }

  /** The charged price of the items, item by item: price times units, unless out of stock. */
  function ItemsTotalPrice(items: seq<OrderItem>, outOfStock: set<int>): int
  {
    if items == [] then 0
    else
      (if ItemOutOfStock(items[0], outOfStock) then 0 else items[0].product.price * InstanceCount(items[0].quantity))
      + ItemsTotalPrice(items[1..], outOfStock)
  }

  /** The refund of the items, item by item: price times units of those out of stock. */
  function ItemsRefund(items: seq<OrderItem>, outOfStock: set<int>): int
  {
    if items == [] then 0
    else
      (if ItemOutOfStock(items[0], outOfStock) then items[0].product.price * InstanceCount(items[0].quantity) else 0)
      + ItemsRefund(items[1..], outOfStock)
  }

  /** The reducers over the expanded instances agree with the item-by-item totals. */
  lemma {:induction false} ExpandedTotals(orderId: int, items: seq<OrderItem>, outOfStock: set<int>)
    ensures TotalPrice(Instances(orderId, items, outOfStock)) == ItemsTotalPrice(items, outOfStock)
    ensures RefundedAmount(Instances(orderId, items, outOfStock)) == ItemsRefund(items, outOfStock)
  {
    if items != [] {
      var head := ItemInstances(orderId, items[0], outOfStock);
      ExpandedTotals(orderId, items[1..], outOfStock);
      TotalsAppend(head, Instances(orderId, items[1..], outOfStock));
      UniformTotals(head, items[0].product.price, ItemOutOfStock(items[0], outOfStock));
    }
  }

  // ---------------------------------------------------------------------
  // Recomputing the totals of every order (the effect on `outOfStockInstances`)

  function OrderInstances(order: OrderView, outOfStock: set<int>): seq<Instance>
  {
    Instances(order.row.id, order.orderItems, outOfStock)
  }

  function RecomputeTotals(order: OrderView, outOfStock: set<int>): (r: OrderView)
    ensures r.orderItems == order.orderItems
    ensures r.row.(totalPrice := order.row.totalPrice, refundedAmount := order.row.refundedAmount) == order.row
    ensures r.row.totalPrice == ItemsTotalPrice(order.orderItems, outOfStock)
    ensures r.row.refundedAmount == Some(ItemsRefund(order.orderItems, outOfStock))
  {
    var instances := OrderInstances(order, outOfStock);
    ExpandedTotals(order.row.id, order.orderItems, outOfStock);
    order.(row := order.row.(totalPrice := TotalPrice(instances), refundedAmount := Some(RefundedAmount(instances))))
  }

  /** `prevOrders.map(...)` in `updateOrderTotals`. */
  function WithRecomputedTotals(orders: seq<OrderView>, outOfStock: set<int>): (r: seq<OrderView>)
    ensures |r| == |orders|
    ensures forall i :: 0 <= i < |orders| ==>
      && r[i].orderItems == orders[i].orderItems
      && r[i].row.(totalPrice := orders[i].row.totalPrice, refundedAmount := orders[i].row.refundedAmount) == orders[i].row
      && r[i].row.totalPrice == ItemsTotalPrice(orders[i].orderItems, outOfStock)
      && r[i].row.refundedAmount == Some(ItemsRefund(orders[i].orderItems, outOfStock))
  {
    seq(|orders|, i requires 0 <= i < |orders| => RecomputeTotals(orders[i], outOfStock))
  }

  // ---------------------------------------------------------------------
  // Toggle and status change

  /** The out-of-stock set after `handleOutOfStockToggle` on an item of an order in `orderStatus`. */
  function Toggled(outOfStock: set<int>, orderItemId: int, orderStatus: string): (r: set<int>)
    ensures orderStatus != Pending ==> r == outOfStock
    ensures orderStatus == Pending ==> (orderItemId in r <==> orderItemId !in outOfStock)
    ensures forall id :: id != orderItemId ==> (id in r <==> id in outOfStock)
  {
    if orderStatus != Pending then outOfStock
    else if orderItemId in outOfStock then outOfStock - {orderItemId}
    else outOfStock + {orderItemId}
  }

  lemma ToggleTwice(outOfStock: set<int>, orderItemId: int, orderStatus: string)
    ensures Toggled(Toggled(outOfStock, orderItemId, orderStatus), orderItemId, orderStatus) == outOfStock
  {
  }

  /** `prevOrders.map(order => order.id === orderId ? { ...order, status } : order)`. */
  function ChangeStatus(orders: seq<OrderView>, orderId: int, status: string): (r: seq<OrderView>)
    ensures |r| == |orders|
    ensures forall i :: 0 <= i < |orders| ==>
      && r[i].orderItems == orders[i].orderItems
      && r[i].row.(status := orders[i].row.status) == orders[i].row
      && r[i].row.status == if orders[i].row.id == orderId then status else orders[i].row.status
  {
    seq(|orders|, i requires 0 <= i < |orders| =>
      if orders[i].row.id == orderId then orders[i].(row := orders[i].row.(status := status)) else orders[i])
  }

  /** The `Status` text written to the product row when its item is toggled. */
  function ProductStatus(isOutOfStock: bool): (st: string)
    // the text written determines the flag, and the other way round
    ensures st == "out of stock" <==> isOutOfStock
    ensures st == "in stock" <==> !isOutOfStock
  {
    if isOutOfStock then "out of stock" else "in stock"
  }

  /** The writes the toggle sends: the item's new flag, and the product's new status. */
  datatype ToggleWrites = ToggleWrites(orderItemId: int, isOutOfStock: bool, productId: int, productStatus: string)

  /** The page's state. */
  class PageState {
    var orders: seq<OrderView>
    var outOfStockInstances: set<int>

    constructor (ordersWithProducts: seq<OrderView>)
      ensures orders == ordersWithProducts && outOfStockInstances == {}
    {
      orders := ordersWithProducts;
      outOfStockInstances := {};
    }

    /** On mount: the ids of the items stored as out of stock, unless the query failed. */
    method FetchOutOfStockInstances(response: Option<seq<int>>)
      modifies this`outOfStockInstances
      ensures response.None? ==> outOfStockInstances == old(outOfStockInstances)
      ensures response.Some? ==> forall id :: id in outOfStockInstances <==> id in response.value
    {
      if response.Some? {
        outOfStockInstances := set id | id in response.value;
      }
    }

    /** On mount: the latest orders, unless the query failed. */
    method FetchOrdersFromDB(response: Option<seq<OrderView>>)
      modifies this`orders
      ensures orders == if response.Some? then response.value else old(orders)
    {
      if response.Some? {
        orders := response.value;
      }
    }

    /**
     * `handleOutOfStockToggle`: on a pending order, flip the item's
     * membership in the set and return the two writes sent to the database.
     */
    method HandleOutOfStockToggle(instance: Instance, orderStatus: string) returns (writes: Option<ToggleWrites>)
      modifies this`outOfStockInstances
      ensures outOfStockInstances == Toggled(old(outOfStockInstances), instance.orderItemId, orderStatus)
      ensures orderStatus != Pending ==> writes.None?
      ensures orderStatus == Pending ==>
        var isNowOutOfStock := instance.orderItemId !in old(outOfStockInstances);
        writes == Some(ToggleWrites(instance.orderItemId, isNowOutOfStock, instance.product.id, ProductStatus(isNowOutOfStock)))
    {
      if orderStatus != Pending {
        return None;
      }
      var instanceId := instance.orderItemId;
      var isNowOutOfStock := instanceId !in outOfStockInstances;
      var updated := outOfStockInstances;
      if isNowOutOfStock {
        updated := updated + {instanceId};
      } else {
        updated := updated - {instanceId};
      }
      outOfStockInstances := updated;
      writes := Some(ToggleWrites(instanceId, isNowOutOfStock, instance.product.id, ProductStatus(isNowOutOfStock)));
    }

    /**
     * `handleStatusChange`: call the `updateOrderStatus` action; only if it
     * does not throw, set the status of the matching order in the list.
     */
    method HandleStatusChange(db: OrderActions.Backend, orderId: int, status: string, updateFails: bool, session: Option<string>)
      returns (sent: Option<OrderActions.Notification>)
      modifies this`orders, db
      ensures db.State() == OrderActions.StatusUpdate(old(db.State()), orderId, status, updateFails, session).after
      ensures sent.Some? <==> OrderActions.StatusUpdate(old(db.State()), orderId, status, updateFails, session).outcome == OrderActions.Done
      ensures orders == if sent.Some? then ChangeStatus(old(orders), orderId, status) else old(orders)
      ensures sent.Some? <==> !updateFails && OrderActions.LoggedIn(session)
    {
      var outcome;
      outcome, sent := db.UpdateOrderStatus(orderId, status, updateFails, session);
      if outcome == OrderActions.Done {
        orders := ChangeStatus(orders, orderId, status);
      }
    }

    /** `updateOrderTotals`: recompute both totals of every order from the current set. */
    method UpdateOrderTotals()
      modifies this`orders
      ensures orders == WithRecomputedTotals(old(orders), outOfStockInstances)
    {
      orders := WithRecomputedTotals(orders, outOfStockInstances);
    }
  }
}
