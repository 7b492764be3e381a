/** The order part of the server's storage layer: creating an order from
    requested lines, and listing a user's orders with their items.
    The database is an object whose fields are the tables it touches and the
    serial counters that number new rows. */
module Storage {
  import opened Results
  import opened Schema
  import Strings

  /** The error thrown when a requested product has no row. */
  datatype StorageError = ProductNotFound(productId: int) {
    /** The message of the thrown error: "Product <id> not found". */
    function Message(): (m: string)
      ensures |m| > 18 && m[..8] == "Product " && m[|m| - 10..] == " not found"
      ensures Strings.ParseInt(m[8..|m| - 10]) == Some(productId)
    {
      var digits := Strings.IntToString(productId);
      var m := "Product " + digits + " not found";
      assert m[8..|m| - 10] == digits;
      Strings.IntToStringRoundTrip(productId);
      m
    }
  }

  /** A price snapshot collected while the lines are read, before any insert. */
  datatype PendingItem = PendingItem(productId: int, quantity: int, price: Cents)

  /** An order_items row joined to its product row. */
  datatype JoinedItem = JoinedItem(item: OrderItem, product: Product)

  /** An order with its joined items, as the order listing returns it. */
  datatype OrderWithItems = OrderWithItems(order: Order, items: seq<JoinedItem>)

  // ---------------------------------------------------------------------
  // Specification of order creation
  // ---------------------------------------------------------------------

  /** Every requested product has a row. */
  predicate AllFound(products: map<int, Product>, lines: seq<LineRequest>) {
    forall i :: 0 <= i < |lines| ==> lines[i].productId in products
  }

  /** The index of the first line whose product has no row; |lines| when every
      product exists. */
  function FirstMissing(products: map<int, Product>, lines: seq<LineRequest>): (k: nat)
    ensures k <= |lines|
    ensures forall j :: 0 <= j < k ==> lines[j].productId in products
    ensures k < |lines| ==> lines[k].productId !in products
    ensures k == |lines| <==> AllFound(products, lines)
  {
    if lines == [] then 0
    else if lines[0].productId !in products then 0
    else 1 + FirstMissing(products, lines[1..])
  }

  /** The order total: the running sum, line by line in input order, of the
      product's current price times the requested quantity. */
  function OrderTotal(products: map<int, Product>, lines: seq<LineRequest>): (r: Cents)
    requires AllFound(products, lines)
    ensures (forall i :: 0 <= i < |lines| ==> lines[i].quantity >= 0 && products[lines[i].productId].price >= 0)
            ==> r >= 0
  {
    if lines == [] then 0
    else
      var last := lines[|lines| - 1];
      var price := products[last.productId].price;
      assert price >= 0 && last.quantity >= 0 ==> price * last.quantity >= 0;
      OrderTotal(products, lines[..|lines| - 1]) + price * last.quantity
  }

  /** The snapshots collected for the lines: one per line, in input order. */
  function Snapshot(products: map<int, Product>, lines: seq<LineRequest>): (r: seq<PendingItem>)
    requires AllFound(products, lines)
    ensures |r| == |lines|
    ensures forall k :: 0 <= k < |lines| ==>
      r[k] == PendingItem(lines[k].productId, lines[k].quantity, products[lines[k].productId].price)
  {
    seq(|lines|, k requires 0 <= k < |lines| =>
      PendingItem(lines[k].productId, lines[k].quantity, products[lines[k].productId].price))
  }

  /** The order_items rows inserted for the snapshots, numbered from `firstId`. */
  function ItemRows(orderId: int, firstId: int, pending: seq<PendingItem>): (r: seq<OrderItem>)
    ensures |r| == |pending|
    ensures forall k :: 0 <= k < |pending| ==>
      r[k] == OrderItem(firstId + k, orderId, pending[k].productId, pending[k].quantity, pending[k].price)
  {
    seq(|pending|, k requires 0 <= k < |pending| =>
      OrderItem(firstId + k, orderId, pending[k].productId, pending[k].quantity, pending[k].price))
  }

  /** The sum of quantity times unit price over order_items rows. */
  function RowsTotal(rows: seq<OrderItem>): Cents {
    if rows == [] then 0
    else RowsTotal(rows[..|rows| - 1]) + rows[|rows| - 1].quantity * rows[|rows| - 1].price
  }

  /** The stored items of an order add up to the stored order total. */
  lemma {:induction false} RowsTotalIsOrderTotal(
    products: map<int, Product>, lines: seq<LineRequest>, orderId: int, firstId: int)
    requires AllFound(products, lines)
    ensures RowsTotal(ItemRows(orderId, firstId, Snapshot(products, lines))) == OrderTotal(products, lines)
  {
    if lines != [] {
      var n := |lines|;
      var rows := ItemRows(orderId, firstId, Snapshot(products, lines));
      var shorter := lines[..n - 1];
      RowsTotalIsOrderTotal(products, shorter, orderId, firstId);
      assert rows[..n - 1] == ItemRows(orderId, firstId, Snapshot(products, shorter));
    }
  }

  /** An order with no lines has total 0 and no items. */
  lemma EmptyOrder(products: map<int, Product>, orderId: int, firstId: int)
    ensures AllFound(products, [])
    ensures OrderTotal(products, []) == 0
    ensures ItemRows(orderId, firstId, Snapshot(products, [])) == []
  {
  }

  // ---------------------------------------------------------------------
  // Specification of the order listing
  // ---------------------------------------------------------------------

  /** The orders of one user, in table order. */
  function UserOrders(orders: seq<Order>, userId: string): (r: seq<Order>)
    ensures forall o :: multiset(r)[o] == if o.userId == userId then multiset(orders)[o] else 0
  {
    if orders == [] then []
    else
      assert orders == [orders[0]] + orders[1..];
      (if orders[0].userId == userId then [orders[0]] else []) + UserOrders(orders[1..], userId)
  }

  /** Newest first: creation times never increase along the sequence. */
  predicate NewestFirstOrdered(s: seq<Order>) {
    forall i, j :: 0 <= i < j < |s| ==> s[i].createdAt >= s[j].createdAt
  }

  /** Inserts `o` before the first order that is not newer than it. */
  function InsertByNewest(o: Order, s: seq<Order>): (r: seq<Order>)
    requires NewestFirstOrdered(s)
    ensures NewestFirstOrdered(r)
    ensures multiset(r) == multiset(s) + multiset{o}
  {
    if s == [] || o.createdAt >= s[0].createdAt then [o] + s
    else
      var rest := InsertByNewest(o, s[1..]);
      InsertedBelowHead(o, s, rest);
      [s[0]] + rest
  }

  /** Everything in the insertion into the tail of `s` is no newer than its head. */
  lemma {:induction false} InsertedBelowHead(o: Order, s: seq<Order>, rest: seq<Order>)
    requires NewestFirstOrdered(s) && s != [] && o.createdAt < s[0].createdAt
    requires multiset(rest) == multiset(s[1..]) + multiset{o}
    ensures multiset(s) + multiset{o} == multiset([s[0]] + rest)
    ensures forall x :: x in rest ==> x.createdAt <= s[0].createdAt
  {
    assert s == [s[0]] + s[1..];
    forall x | x in rest
      ensures x.createdAt <= s[0].createdAt
    {
      assert x in multiset(rest);
      if x != o {
        assert x in multiset(s[1..]);
      }
    }
  }

  /** `ORDER BY created_at DESC`, by insertion. */
  function NewestFirst(s: seq<Order>): (r: seq<Order>)
    ensures NewestFirstOrdered(r)
    ensures multiset(r) == multiset(s)
  {
    if s == [] then []
    else
      assert s == [s[0]] + s[1..];
      InsertByNewest(s[0], NewestFirst(s[1..]))
  }

  /** The inner join of order_items with products, restricted to one order. */
  function JoinItems(items: seq<OrderItem>, orderId: int, products: map<int, Product>): (r: seq<JoinedItem>)
    ensures forall j :: j in r <==>
      j.item in items && j.item.orderId == orderId && j.item.productId in products
      && j.product == products[j.item.productId]
    ensures forall x :: (multiset(ItemsOf(r))[x]
                         == if x.orderId == orderId && x.productId in products then multiset(items)[x] else 0)
  {
    if items == [] then []
    else
      var it := items[0];
      var rest := JoinItems(items[1..], orderId, products);
      assert forall x :: x in items <==> x == it || x in items[1..];
      assert multiset(items) == multiset{it} + multiset(items[1..]) by {
        assert items == [it] + items[1..];
      }
      if it.orderId == orderId && it.productId in products then
        var joined := JoinedItem(it, products[it.productId]);
        ItemsOfCons(joined, rest);
        [joined] + rest
      else rest
  }

  /** The order_items rows of joined items, in order. */
  function ItemsOf(joined: seq<JoinedItem>): (r: seq<OrderItem>)
    ensures |r| == |joined| && forall k :: 0 <= k < |joined| ==> r[k] == joined[k].item
  {
    seq(|joined|, k requires 0 <= k < |joined| => joined[k].item)
  }

  /** The order headers of a listing, in order. */
  function Headers(listing: seq<OrderWithItems>): (r: seq<Order>)
    ensures |r| == |listing| && forall k :: 0 <= k < |listing| ==> r[k] == listing[k].order
  {
    seq(|listing|, k requires 0 <= k < |listing| => listing[k].order)
  }

  /** Each order of `headers`, in order, with its joined items. */
  function WithItems(headers: seq<Order>, items: seq<OrderItem>, products: map<int, Product>): (r: seq<OrderWithItems>)
    ensures Headers(r) == headers
    ensures forall i :: 0 <= i < |r| ==> r[i].items == JoinItems(items, headers[i].id, products)
  {
    var r := seq(|headers|, i requires 0 <= i < |headers| =>
      OrderWithItems(headers[i], JoinItems(items, headers[i].id, products)));
    assert Headers(r) == headers;
    r
  }

  /** Any arrangement of a user's orders holds only that user's orders. */
  lemma UserOrdersBelong(orders: seq<Order>, userId: string, s: seq<Order>)
    requires multiset(s) == multiset(UserOrders(orders, userId))
    ensures forall i :: 0 <= i < |s| ==> s[i].userId == userId
  {
    forall i | 0 <= i < |s|
      ensures s[i].userId == userId
    {
      assert s[i] in multiset(s);
    }
  }

  /** One step of the join: the first row, if it joins, then the join of the rest. */
  lemma JoinStep(items: seq<OrderItem>, orderId: int, products: map<int, Product>)
    requires items != []
    ensures JoinItems(items, orderId, products)
      == (if items[0].orderId == orderId && items[0].productId in products
          then [JoinedItem(items[0], products[items[0].productId])] else [])
         + JoinItems(items[1..], orderId, products)
  {
  }

  /** The rows of a listing that starts with one joined item. */
  lemma ItemsOfCons(x: JoinedItem, rest: seq<JoinedItem>)
    ensures ItemsOf([x] + rest) == [x.item] + ItemsOf(rest)
  {
    assert ItemsOf([x] + rest)[0] == x.item;
    assert forall k :: 1 <= k < |rest| + 1 ==> ([x] + rest)[k] == rest[k - 1];
  }

  /** Changing product prices changes no stored order item seen through the
      join: the listed prices are the snapshots taken at creation. */
  lemma {:induction false} JoinKeepsSnapshots(
    items: seq<OrderItem>, orderId: int, before: map<int, Product>, after: map<int, Product>)
    requires before.Keys == after.Keys
    ensures ItemsOf(JoinItems(items, orderId, before)) == ItemsOf(JoinItems(items, orderId, after))
  {
    if items != [] {
      var it, tail := items[0], items[1..];
      JoinKeepsSnapshots(tail, orderId, before, after);
      JoinStep(items, orderId, before);
      JoinStep(items, orderId, after);
      if it.orderId == orderId && it.productId in before {
        ItemsOfCons(JoinedItem(it, before[it.productId]), JoinItems(tail, orderId, before));
        ItemsOfCons(JoinedItem(it, after[it.productId]), JoinItems(tail, orderId, after));
      } else {
        assert JoinItems(items, orderId, before) == JoinItems(tail, orderId, before);
        assert JoinItems(items, orderId, after) == JoinItems(tail, orderId, after);
      }
    }
  }

  /** Rows are keyed by their id; serial ids start at 1, grow with insertion
      and stay below the next value of their sequence; every item belongs to
      an existing order. */
  predicate TablesConsistent(
    products: map<int, Product>, orders: seq<Order>, items: seq<OrderItem>, nextOrderId: int, nextItemId: int)
  {
    && (forall id :: id in products ==> products[id].id == id)
    && 1 <= nextOrderId && 1 <= nextItemId
    && (forall i :: 0 <= i < |orders| ==> 1 <= orders[i].id < nextOrderId)
    && (forall i, j :: 0 <= i < j < |orders| ==> orders[i].id < orders[j].id)
    && (forall i :: 0 <= i < |items| ==> 1 <= items[i].id < nextItemId)
    && (forall i, j :: 0 <= i < j < |items| ==> items[i].id < items[j].id)
    && (forall i :: 0 <= i < |items| ==> exists j :: 0 <= j < |orders| && orders[j].id == items[i].orderId)
  }

  /** Inserting a new order with the next serial id, followed by its item rows
      numbered from the next item id, keeps the tables consistent. */
  lemma {:induction false} InsertKeepsConsistent(
    products: map<int, Product>, orders: seq<Order>, items: seq<OrderItem>, nextOrderId: int, nextItemId: int,
    order: Order, pending: seq<PendingItem>)
    requires TablesConsistent(products, orders, items, nextOrderId, nextItemId)
    requires order.id == nextOrderId
    ensures TablesConsistent(products, orders + [order], items + ItemRows(order.id, nextItemId, pending),
                             nextOrderId + 1, nextItemId + |pending|)
  {
    var orders', items' := orders + [order], items + ItemRows(order.id, nextItemId, pending);
    forall i | 0 <= i < |items'|
      ensures exists j :: 0 <= j < |orders'| && orders'[j].id == items'[i].orderId
    {
      if i >= |items| {
        assert items'[i] == ItemRows(order.id, nextItemId, pending)[i - |items|];
        assert orders'[|orders|].id == items'[i].orderId;
      } else {
        assert items'[i] == items[i];
        var j :| 0 <= j < |orders| && orders[j].id == items[i].orderId;
        assert orders'[j] == orders[j];
      }
    }
    assert forall i :: 0 <= i < |items'| ==> 1 <= items'[i].id < nextItemId + |pending|;
    assert forall i, j :: 0 <= i < j < |items'| ==> items'[i].id < items'[j].id;
    assert TablesConsistent(products, orders', items', nextOrderId + 1, nextItemId + |pending|);
  }

  // ---------------------------------------------------------------------
  // The storage object
  // ---------------------------------------------------------------------

  class DatabaseStorage {
    /** The products table, by id. */
    var products: map<int, Product>
    /** The orders table, in insertion order. */
    var orders: seq<Order>
    /** The order_items table, in insertion order. */
    var orderItems: seq<OrderItem>
    /** The next values of the two serial id sequences. */
    var nextOrderId: int
    var nextOrderItemId: int

    ghost predicate Valid()
      reads this
    {
      TablesConsistent(products, orders, orderItems, nextOrderId, nextOrderItemId)
    }

    /** A store holding the given products and no orders yet. */
    constructor (products: map<int, Product>)
      requires forall id :: id in products ==> products[id].id == id
      ensures Valid()
      ensures this.products == products && orders == [] && orderItems == []
    {
      this.products := products;
      orders := [];
      orderItems := [];
      nextOrderId := 1;
      nextOrderItemId := 1;
    }

    /** Creates an order for `userId` from the requested lines. Every product is
        read first; a missing one fails the call before anything is written.
        Then one pending order and one item per line are inserted. `now` is the
        database clock that fills created_at. Products are never written. */
    method CreateOrder(userId: string, lines: seq<LineRequest>, now: int) returns (r: Result<Order, StorageError>)
      requires Valid()
      modifies this
      ensures Valid()
      ensures products == old(products)
      ensures !AllFound(products, lines) ==>
        && r == Failure(ProductNotFound(lines[FirstMissing(products, lines)].productId))
        && orders == old(orders) && orderItems == old(orderItems)
        && nextOrderId == old(nextOrderId) && nextOrderItemId == old(nextOrderItemId)
      ensures AllFound(products, lines) ==>
        && r == Success(Order(old(nextOrderId), userId, OrderTotal(products, lines), PendingStatus, now))
        && orders == old(orders) + [r.value]
        && orderItems == old(orderItems) + ItemRows(r.value.id, old(nextOrderItemId), Snapshot(products, lines))
        && nextOrderId == old(nextOrderId) + 1
        && nextOrderItemId == old(nextOrderItemId) + |lines|
    {
      var read := ReadLines(lines);
      if read.Failure? {
        return Failure(read.error);
      }
      var (total, pending) := read.value;
      var order := Order(nextOrderId, userId, total, PendingStatus, now);
      InsertKeepsConsistent(products, orders, orderItems, nextOrderId, nextOrderItemId, order, pending);
      orders := orders + [order];
      nextOrderId := nextOrderId + 1;
      InsertItems(order.id, pending);
      return Success(order);
    }

    /** The read phase of order creation: looks up every line's product in
        turn, adding up the total and collecting the price snapshots, and
        stops at the first line whose product has no row. */
    method ReadLines(lines: seq<LineRequest>) returns (r: Result<(Cents, seq<PendingItem>), StorageError>)
      ensures !AllFound(products, lines) ==> r == Failure(ProductNotFound(lines[FirstMissing(products, lines)].productId))
      ensures AllFound(products, lines) ==> r == Success((OrderTotal(products, lines), Snapshot(products, lines)))
    {
      var total := 0;
      var pending: seq<PendingItem> := [];
      var i := 0;
      while i < |lines|
        invariant 0 <= i <= |lines|
        invariant AllFound(products, lines[..i])
        invariant total == OrderTotal(products, lines[..i])
        invariant pending == Snapshot(products, lines[..i])
      {
        var line := lines[i];
        if line.productId !in products {
          assert FirstMissing(products, lines) == i;
          return Failure(ProductNotFound(line.productId));
        }
        var price := products[line.productId].price;
        assert lines[..i + 1][..i] == lines[..i];
        total := total + price * line.quantity;
        pending := pending + [PendingItem(line.productId, line.quantity, price)];
        i := i + 1;
      }
      assert lines[..i] == lines;
      return Success((total, pending));
    }

    /** The write phase of order creation: one order_items row per snapshot,
        numbered by the item serial. */
    method InsertItems(orderId: int, pending: seq<PendingItem>)
      modifies this
      ensures orderItems == old(orderItems) + ItemRows(orderId, old(nextOrderItemId), pending)
      ensures nextOrderItemId == old(nextOrderItemId) + |pending|
      ensures products == old(products) && orders == old(orders) && nextOrderId == old(nextOrderId)
    {
      var k := 0;
      while k < |pending|
        invariant 0 <= k <= |pending|
        invariant products == old(products) && orders == old(orders) && nextOrderId == old(nextOrderId)
        invariant nextOrderItemId == old(nextOrderItemId) + k
        invariant orderItems == old(orderItems) + ItemRows(orderId, old(nextOrderItemId), pending[..k])
      {
        var row := OrderItem(nextOrderItemId, orderId, pending[k].productId, pending[k].quantity, pending[k].price);
        assert ItemRows(orderId, old(nextOrderItemId), pending[..k + 1])
          == ItemRows(orderId, old(nextOrderItemId), pending[..k]) + [row];
        orderItems := orderItems + [row];
        nextOrderItemId := nextOrderItemId + 1;
        k := k + 1;
      }
      assert pending[..k] == pending;
    }

    /** The orders of `userId`, newest first, each with its items that still
        join to a product row. */
    function GetOrders(userId: string): (r: seq<OrderWithItems>)
      reads this
      ensures forall i :: 0 <= i < |r| ==> r[i].order.userId == userId
      ensures NewestFirstOrdered(Headers(r))
      ensures multiset(Headers(r)) == multiset(UserOrders(orders, userId))
      ensures forall i :: 0 <= i < |r| ==> forall j :: j in r[i].items <==>
        && j.item in orderItems && j.item.orderId == r[i].order.id
        && j.item.productId in products && j.product == products[j.item.productId]
      ensures forall i :: 0 <= i < |r| ==> forall x :: (multiset(ItemsOf(r[i].items))[x]
        == if x.orderId == r[i].order.id && x.productId in products then multiset(orderItems)[x] else 0)
    {
      var sorted := NewestFirst(UserOrders(orders, userId));
      UserOrdersBelong(orders, userId, sorted);
      WithItems(sorted, orderItems, products)
    }
  }

  /** Rows with strictly increasing ids hold each row at most once. */
  lemma {:induction false} IncreasingIdsOnce(items: seq<OrderItem>, x: OrderItem)
    requires forall i, j :: 0 <= i < j < |items| ==> items[i].id < items[j].id
    ensures multiset(items)[x] <= 1
  {
    if items != [] {
      var tail := items[1..];
      assert items == [items[0]] + tail;
      IncreasingIdsOnce(tail, x);
      if items[0] == x {
        forall k | 0 <= k < |tail|
          ensures tail[k] != x
        {
          assert tail[k] == items[k + 1];
        }
        assert x !in multiset(tail);
      }
    }
  }

  /** In a consistent store, each order's listing shows each of its item
      rows once: the join is on the products' primary key. */
  lemma ListedItemsOnce(db: DatabaseStorage, userId: string, i: nat, x: OrderItem)
    requires db.Valid() && i < |db.GetOrders(userId)|
    ensures multiset(ItemsOf(db.GetOrders(userId)[i].items))[x] <= 1
  {
    IncreasingIdsOnce(db.orderItems, x);
  }

  /** Every listed order belongs to the user and comes from the orders table. */
  lemma ListedOrdersAreTheUsers(db: DatabaseStorage, userId: string, o: Order)
    ensures o in Headers(db.GetOrders(userId)) <==> o in db.orders && o.userId == userId
  {
    var listed := Headers(db.GetOrders(userId));
    assert o in listed <==> multiset(listed)[o] > 0;
  }
}
