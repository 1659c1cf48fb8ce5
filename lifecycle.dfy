/**
 * How the mutating routes show up in the views: the order transitions
 * (reassign driver, complete), attaching toppings, and deleting customers.
 * Each lemma takes the lists before the route and the lists the route's
 * method in `TuberStore.Store` leaves behind.
 */
module Lifecycle {
  import opened Wrappers
  import opened Int32
  import opened Entities
  import opened Tables
  import opened Projection

  /**
   * After a driver reassignment, the order's single view is the old one with
   * only `TuberDriverId` replaced: customer, dates and toppings are as before.
   */
  lemma ReassignChangesOnlyDriver(orders: seq<TuberOrder>, rows: seq<TuberTopping>, toppings: seq<Topping>, i: nat, driver: Option<int32>)
    requires UniqueKeys(orders, TuberOrderKey)
    requires i < |orders|
    ensures OrderById(orders, rows, toppings, orders[i].id).Ok?
    ensures OrderById(orders[i := orders[i].(tuberDriverId := driver)], rows, toppings, orders[i].id) ==
      Ok(OrderById(orders, rows, toppings, orders[i].id).body.(tuberDriverId := driver))
  {
    var after := orders[i := orders[i].(tuberDriverId := driver)];
    FirstIndexOfUnique(orders, TuberOrderKey, i);
    UpdateSameKeyKeepsUnique(orders, TuberOrderKey, i, after[i]);
    FirstIndexOfUnique(after, TuberOrderKey, i);
  }

  /**
   * After completing an order, its single view is the old one with
   * `DeliveredOnDate` set to the completion time, whether or not it was set
   * before; everything else, toppings included, is as before.
   */
  lemma CompleteChangesOnlyDelivery(orders: seq<TuberOrder>, rows: seq<TuberTopping>, toppings: seq<Topping>, i: nat, now: Timestamp)
    requires UniqueKeys(orders, TuberOrderKey)
    requires i < |orders|
    ensures OrderById(orders, rows, toppings, orders[i].id).Ok?
    ensures OrderById(orders[i := orders[i].(deliveredOnDate := Some(now))], rows, toppings, orders[i].id) ==
      Ok(OrderById(orders, rows, toppings, orders[i].id).body.(deliveredOnDate := Some(now)))
  {
    var after := orders[i := orders[i].(deliveredOnDate := Some(now))];
    FirstIndexOfUnique(orders, TuberOrderKey, i);
    UpdateSameKeyKeepsUnique(orders, TuberOrderKey, i, after[i]);
    FirstIndexOfUnique(after, TuberOrderKey, i);
  }

  /** Reassigning an order moves it onto the new driver's deliveries and off every other driver's. */
  lemma ReassignMovesDelivery(orders: seq<TuberOrder>, i: nat, driver: Option<int32>, d: int32)
    requires i < |orders|
    ensures var after := orders[i := orders[i].(tuberDriverId := driver)];
      after[i] in OrdersWhere(after, ByDriver(d)) <==> driver == Some(d)
  {
    var after := orders[i := orders[i].(tuberDriverId := driver)];
    assert after[i] in after;
  }

  /** The selection of orders, split around order `i`. */
  lemma OrdersWhereSplit(orders: seq<TuberOrder>, i: nat, sel: Selector)
    requires i < |orders|
    ensures OrdersWhere(orders, sel) ==
      OrdersWhere(orders[..i], sel) + OrdersWhere([orders[i]], sel) + OrdersWhere(orders[i + 1..], sel)
  {
    assert orders == orders[..i] + [orders[i]] + orders[i + 1..];
    OrdersWhereAppend(orders[..i] + [orders[i]], orders[i + 1..], sel);
    OrdersWhereAppend(orders[..i], [orders[i]], sel);
  }

  /**
   * A driver reassignment leaves every customer with the same number of
   * orders, at the same places in the customer's list.
   */
  lemma ReassignKeepsCustomerOrders(orders: seq<TuberOrder>, i: nat, driver: Option<int32>, c: int32)
    requires i < |orders|
    ensures var after := orders[i := orders[i].(tuberDriverId := driver)];
      |OrdersWhere(after, ByCustomer(c))| == |OrdersWhere(orders, ByCustomer(c))| &&
      OrdersWhere(after, ByCustomer(c)) == OrdersWhere(orders[..i], ByCustomer(c)) +
        OrdersWhere([after[i]], ByCustomer(c)) + OrdersWhere(orders[i + 1..], ByCustomer(c))
  {
    var after := orders[i := orders[i].(tuberDriverId := driver)];
    OrdersWhereSplit(orders, i, ByCustomer(c));
    OrdersWhereSplit(after, i, ByCustomer(c));
    assert after[..i] == orders[..i] && after[i + 1..] == orders[i + 1..];
    assert [after[i]][1..] == [] && [orders[i]][1..] == [];
  }

  /**
   * Two attaches in a row get two different ids, one apart, even for the same
   * (order, topping) pair; nothing rejects the duplicate.
   */
  lemma AttachTwiceDistinctIds(rows: seq<TuberTopping>, first: TuberTopping, second: TuberTopping)
    requires rows != []
    requires !HasKey(rows, TuberToppingKey, MAX)
    requires NextKey(rows, TuberToppingKey) != MAX
    ensures var a := first.(id := NextKey(rows, TuberToppingKey));
      var b := second.(id := NextKey(rows + [a], TuberToppingKey));
      b.id == a.id + 1 && !HasKey(rows, TuberToppingKey, a.id) && !HasKey(rows + [a], TuberToppingKey, b.id)
  {
    var a := first.(id := NextKey(rows, TuberToppingKey));
    var grown := rows + [a];
    assert !HasKey(grown, TuberToppingKey, MAX) by {
      forall k | 0 <= k < |grown| ensures TuberToppingKey(grown[k]) != MAX {
        if k < |rows| { assert grown[k] == rows[k]; } else { assert grown[k] == a; }
      }
    }
    assert forall k :: 0 <= k < |grown| ==> TuberToppingKey(grown[k]) <= a.id by {
      forall k | 0 <= k < |grown| ensures TuberToppingKey(grown[k]) <= a.id {
        if k < |rows| { assert grown[k] == rows[k]; } else { assert grown[k] == a; }
      }
    }
    assert TuberToppingKey(grown[|rows|]) == a.id;
  }

  /** Attaching the same topping twice to an order lists that topping's DTOs twice, at the end. */
  lemma DuplicateAttachRepeatsTopping(rows: seq<TuberTopping>, a: TuberTopping, b: TuberTopping, toppings: seq<Topping>)
    requires a.tuberOrderId == b.tuberOrderId && a.toppingId == b.toppingId
    ensures OrderToppings(rows + [a] + [b], toppings, a.tuberOrderId) ==
      OrderToppings(rows, toppings, a.tuberOrderId) + ToppingsWithId(toppings, a.toppingId) + ToppingsWithId(toppings, a.toppingId)
  {
    AttachExtendsToppings(rows + [a], b, toppings, a.tuberOrderId);
    AttachExtendsToppings(rows, a, toppings, a.tuberOrderId);
  }

  /** With unique customer ids, a deleted customer's detail view is NotFound. */
  lemma DeletedCustomerNotFound(customers: seq<Customer>, orders: seq<TuberOrder>, rows: seq<TuberTopping>, toppings: seq<Topping>, id: int32)
    requires UniqueKeys(customers, CustomerKey)
    ensures CustomerById(RemoveFirst(customers, CustomerKey, id), orders, rows, toppings, id) == NotFound
  {
    RemoveFirstOfUnique(customers, CustomerKey, id);
  }

  /**
   * Deleting one customer leaves every other customer's detail view as it
   * was, nested orders included: the orders list is not touched.
   */
  lemma DeleteKeepsOtherCustomers(customers: seq<Customer>, orders: seq<TuberOrder>, rows: seq<TuberTopping>, toppings: seq<Topping>, id: int32, c: int32)
    requires c != id
    ensures CustomerById(RemoveFirst(customers, CustomerKey, id), orders, rows, toppings, c) ==
      CustomerById(customers, orders, rows, toppings, c)
  {
    RemoveFirstKeepsOtherLookups(customers, CustomerKey, id, c);
  }
}
