/**
 * The read side of the API: the LINQ `Where` / `SelectMany` / `Select`
 * pipelines that turn the flat lists into DTOs. Every function here reads the
 * lists it is given and nothing else; nothing is cached.
 */
module Projection {
  import opened Wrappers
  import opened Int32
  import opened Entities
  import opened Tables

  function ToppingDtoOf(t: Topping): ToppingDto
  {
    ToppingDto(t.id, t.name)
  }

  /** The DTOs of the toppings whose id is `toppingId`, in list order (Program.cs:148-149). */
  function ToppingsWithId(toppings: seq<Topping>, toppingId: int32): (r: seq<ToppingDto>)
    ensures forall v :: v in r <==> exists t :: t in toppings && t.id == toppingId && v == ToppingDtoOf(t)
    ensures forall k :: 0 <= k < |r| ==> r[k].id == toppingId
    ensures (forall t :: t in toppings ==> t.id != toppingId) ==> r == []
  {
    if |toppings| == 0 then []
    else
      var rest := ToppingsWithId(toppings[1..], toppingId);
      assert forall t :: t in toppings <==> t == toppings[0] || t in toppings[1..];
      if toppings[0].id == toppingId then [ToppingDtoOf(toppings[0])] + rest else rest
  }

  /** With unique topping ids, the filter by id is the lookup by id: at most one topping. */
  lemma {:induction false} ToppingsWithIdIsLookup(toppings: seq<Topping>, toppingId: int32)
    requires UniqueKeys(toppings, ToppingKey)
    ensures ToppingsWithId(toppings, toppingId) ==
      match FirstIndex(toppings, ToppingKey, toppingId)
      case None => []
      case Some(i) => [ToppingDtoOf(toppings[i])]
  {
    if |toppings| > 0 {
      var tail := toppings[1..];
      assert UniqueKeys(tail, ToppingKey) by {
        forall i, j | 0 <= i < j < |tail| ensures ToppingKey(tail[i]) != ToppingKey(tail[j]) {
          assert tail[i] == toppings[i + 1] && tail[j] == toppings[j + 1];
        }
      }
      ToppingsWithIdIsLookup(tail, toppingId);
      if toppings[0].id == toppingId {
        assert !HasKey(tail, ToppingKey, toppingId) by {
          forall k | 0 <= k < |tail| ensures ToppingKey(tail[k]) != toppingId {
            assert tail[k] == toppings[k + 1];
          }
        }
      }
    }
  }

  /** What one join row adds to the `Toppings` list of order `orderId`. */
  function RowToppings(row: TuberTopping, toppings: seq<Topping>, orderId: int32): seq<ToppingDto>
  {
    if row.tuberOrderId == orderId then ToppingsWithId(toppings, row.toppingId) else []
  }

  /** Topping DTO `v` is reachable from order `orderId` through some join row. */
  ghost predicate Reachable(rows: seq<TuberTopping>, toppings: seq<Topping>, orderId: int32, v: ToppingDto)
  {
    exists row, t :: row in rows && t in toppings && row.tuberOrderId == orderId && t.id == row.toppingId && v == ToppingDtoOf(t)
  }

  /**
   * An order's `Toppings` (Program.cs:146-150): for each join row of the order,
   * in list order, the DTOs of the toppings that row names. It holds exactly
   * the toppings reachable through the order's join rows.
   */
  function OrderToppings(rows: seq<TuberTopping>, toppings: seq<Topping>, orderId: int32): (r: seq<ToppingDto>)
    ensures forall v :: v in r <==> Reachable(rows, toppings, orderId, v)
  {
    if |rows| == 0 then []
    else
      var rest := OrderToppings(rows[1..], toppings, orderId);
      assert forall row :: row in rows <==> row == rows[0] || row in rows[1..];
      RowToppings(rows[0], toppings, orderId) + rest
  }

  /** The `Toppings` list follows the join rows: it distributes over concatenation. */
  lemma {:induction false} OrderToppingsAppend(a: seq<TuberTopping>, b: seq<TuberTopping>, toppings: seq<Topping>, orderId: int32)
    ensures OrderToppings(a + b, toppings, orderId) == OrderToppings(a, toppings, orderId) + OrderToppings(b, toppings, orderId)
  {
    if |a| == 0 {
      assert a + b == b;
    } else {
      assert (a + b)[1..] == a[1..] + b;
      OrderToppingsAppend(a[1..], b, toppings, orderId);
    }
  }

  /** Attaching a topping: the new row's toppings are added at the end of its order's list only. */
  lemma AttachExtendsToppings(rows: seq<TuberTopping>, row: TuberTopping, toppings: seq<Topping>, orderId: int32)
    ensures OrderToppings(rows + [row], toppings, orderId) ==
      OrderToppings(rows, toppings, orderId) + (if row.tuberOrderId == orderId then ToppingsWithId(toppings, row.toppingId) else [])
  {
    OrderToppingsAppend(rows, [row], toppings, orderId);
    assert [row][1..] == [];
  }

  /** A join row whose `ToppingId` matches no topping contributes nothing, wherever it stands. */
  lemma DanglingRowContributesNothing(a: seq<TuberTopping>, row: TuberTopping, b: seq<TuberTopping>, toppings: seq<Topping>, orderId: int32)
    requires forall t :: t in toppings ==> t.id != row.toppingId
    ensures OrderToppings(a + [row] + b, toppings, orderId) == OrderToppings(a + b, toppings, orderId)
  {
    OrderToppingsAppend(a + [row], b, toppings, orderId);
    OrderToppingsAppend(a, [row], toppings, orderId);
    OrderToppingsAppend(a, b, toppings, orderId);
    assert [row][1..] == [];
  }

  /** The toppings of a list of join rows, split around row `i`. */
  lemma OrderToppingsSplit(rows: seq<TuberTopping>, toppings: seq<Topping>, orderId: int32, i: nat)
    requires i < |rows|
    ensures OrderToppings(rows, toppings, orderId) ==
      OrderToppings(rows[..i], toppings, orderId) + RowToppings(rows[i], toppings, orderId) + OrderToppings(rows[i + 1..], toppings, orderId)
  {
    assert rows == rows[..i] + [rows[i]] + rows[i + 1..];
    OrderToppingsAppend(rows[..i] + [rows[i]], rows[i + 1..], toppings, orderId);
    OrderToppingsAppend(rows[..i], [rows[i]], toppings, orderId);
    assert [rows[i]][1..] == [];
  }

  /**
   * Detaching a join row cuts exactly that row's contribution out of its
   * order's `Toppings` list, at its position; a missing row changes nothing.
   */
  lemma DetachRemovesRowToppings(rows: seq<TuberTopping>, toppings: seq<Topping>, orderId: int32, id: int32)
    ensures FirstIndex(rows, TuberToppingKey, id).None? ==>
      OrderToppings(RemoveFirst(rows, TuberToppingKey, id), toppings, orderId) == OrderToppings(rows, toppings, orderId)
    ensures FirstIndex(rows, TuberToppingKey, id).Some? ==>
      var i := FirstIndex(rows, TuberToppingKey, id).value;
      OrderToppings(rows, toppings, orderId) ==
        OrderToppings(rows[..i], toppings, orderId) + RowToppings(rows[i], toppings, orderId) + OrderToppings(rows[i + 1..], toppings, orderId) &&
      OrderToppings(RemoveFirst(rows, TuberToppingKey, id), toppings, orderId) ==
        OrderToppings(rows[..i], toppings, orderId) + OrderToppings(rows[i + 1..], toppings, orderId)
  {
    var found := FirstIndex(rows, TuberToppingKey, id);
    if found.Some? {
      var i := found.value;
      OrderToppingsSplit(rows, toppings, orderId, i);
      assert RemoveFirst(rows, TuberToppingKey, id) == rows[..i] + rows[i + 1..];
      OrderToppingsAppend(rows[..i], rows[i + 1..], toppings, orderId);
    }
  }

  /**
   * Reference definition of an order's toppings by lookup: for each of the
   * order's join rows, in list order, the topping with that id if there is one.
   */
  function ToppingsByLookup(rows: seq<TuberTopping>, toppings: seq<Topping>, orderId: int32): seq<ToppingDto>
  {
    if |rows| == 0 then []
    else
      var here :=
        if rows[0].tuberOrderId != orderId then []
        else match FirstIndex(toppings, ToppingKey, rows[0].toppingId)
          case None => []
          case Some(i) => [ToppingDtoOf(toppings[i])];
      here + ToppingsByLookup(rows[1..], toppings, orderId)
  }

  /** With unique topping ids, the join pipeline and the lookup definition agree. */
  lemma {:induction false} OrderToppingsIsLookup(rows: seq<TuberTopping>, toppings: seq<Topping>, orderId: int32)
    requires UniqueKeys(toppings, ToppingKey)
    ensures OrderToppings(rows, toppings, orderId) == ToppingsByLookup(rows, toppings, orderId)
  {
    if |rows| > 0 {
      ToppingsWithIdIsLookup(toppings, rows[0].toppingId);
      OrderToppingsIsLookup(rows[1..], toppings, orderId);
    }
  }

  // ---- order DTOs -----------------------------------------------------------

  /** The DTO a mutation returns: the stored fields, `Toppings = null`. */
  function BareOrderDto(o: TuberOrder): TuberOrderDto
  {
    TuberOrderDto(o.id, o.orderPlacedOnDate, o.customerId, o.tuberDriverId, o.deliveredOnDate, None)
  }

  /** The DTO of the single-order, customer and driver views: stored fields and the joined toppings. */
  function OrderDetailDto(o: TuberOrder, rows: seq<TuberTopping>, toppings: seq<Topping>): TuberOrderDto
  {
    TuberOrderDto(o.id, o.orderPlacedOnDate, o.customerId, o.tuberDriverId, o.deliveredOnDate,
      Some(OrderToppings(rows, toppings, o.id)))
  }

  /** The DTO of the list-all view: as the detail DTO, but `DeliveredOnDate = null` always. */
  function OrderListDto(o: TuberOrder, rows: seq<TuberTopping>, toppings: seq<Topping>): TuberOrderDto
  {
    TuberOrderDto(o.id, o.orderPlacedOnDate, o.customerId, o.tuberDriverId, None,
      Some(OrderToppings(rows, toppings, o.id)))
  }

  /** GET /tuberorders. */
  function AllOrders(orders: seq<TuberOrder>, rows: seq<TuberTopping>, toppings: seq<Topping>): (r: seq<TuberOrderDto>)
    ensures |r| == |orders|
    ensures forall i :: 0 <= i < |orders| ==> r[i] == OrderListDto(orders[i], rows, toppings)
  {
    seq(|orders|, i requires 0 <= i < |orders| => OrderListDto(orders[i], rows, toppings))
  }

  /** GET /tuberorders/{id}: `First` throws when no order has the id, and the handler answers NotFound. */
  function OrderById(orders: seq<TuberOrder>, rows: seq<TuberTopping>, toppings: seq<Topping>, id: int32): (r: Response<TuberOrderDto>)
    ensures r.Ok? || r.NotFound?
    ensures r.NotFound? <==> !HasKey(orders, TuberOrderKey, id)
    ensures r.Ok? ==> r.body.id == id && r.body.toppings == Some(OrderToppings(rows, toppings, id))
    ensures r.Ok? ==>
      exists k :: 0 <= k < |orders| && orders[k].id == id && (forall j :: 0 <= j < k ==> orders[j].id != id) &&
        r.body == OrderDetailDto(orders[k], rows, toppings)
  {
    match FirstIndex(orders, TuberOrderKey, id)
    case None => NotFound
    case Some(i) => Ok(OrderDetailDto(orders[i], rows, toppings))
  }

  /**
   * The list view and the single-order view of the same order give the same
   * toppings; the list view always reports `DeliveredOnDate` as null, and with
   * unique order ids the single view reports the stored value.
   */
  lemma ListAndDetailAgree(orders: seq<TuberOrder>, rows: seq<TuberTopping>, toppings: seq<Topping>, i: nat)
    requires i < |orders|
    ensures OrderById(orders, rows, toppings, orders[i].id).Ok?
    ensures AllOrders(orders, rows, toppings)[i].toppings == OrderById(orders, rows, toppings, orders[i].id).body.toppings
    ensures AllOrders(orders, rows, toppings)[i].deliveredOnDate.None?
    ensures UniqueKeys(orders, TuberOrderKey) ==>
      OrderById(orders, rows, toppings, orders[i].id).body.deliveredOnDate == orders[i].deliveredOnDate &&
      AllOrders(orders, rows, toppings)[i] == OrderById(orders, rows, toppings, orders[i].id).body.(deliveredOnDate := None)
  {
    assert TuberOrderKey(orders[i]) == orders[i].id;
    if UniqueKeys(orders, TuberOrderKey) {
      FirstIndexOfUnique(orders, TuberOrderKey, i);
    }
  }

  // ---- orders of a customer or a driver ------------------------------------

  /** Which orders a nested view collects. */
  datatype Selector = ByCustomer(customerId: int32) | ByDriver(tuberDriverId: int32)

  predicate Selects(sel: Selector, o: TuberOrder)
  {
    match sel
    case ByCustomer(c) => o.customerId == c
    case ByDriver(d) => o.tuberDriverId == Some(d)
  }

  /** The orders of one customer or one driver, in list order (Program.cs:386-388, 489-491). */
  function OrdersWhere(orders: seq<TuberOrder>, sel: Selector): (r: seq<TuberOrder>)
    ensures forall o :: o in r <==> o in orders && Selects(sel, o)
    ensures |r| <= |orders|
  {
    if |orders| == 0 then []
    else
      var rest := OrdersWhere(orders[1..], sel);
      assert forall o :: o in orders <==> o == orders[0] || o in orders[1..];
      if Selects(sel, orders[0]) then [orders[0]] + rest else rest
  }

  /** The selection keeps the orders' list order: it distributes over concatenation. */
  lemma {:induction false} OrdersWhereAppend(a: seq<TuberOrder>, b: seq<TuberOrder>, sel: Selector)
    ensures OrdersWhere(a + b, sel) == OrdersWhere(a, sel) + OrdersWhere(b, sel)
  {
    if |a| == 0 {
      assert a + b == b;
    } else {
      assert (a + b)[1..] == a[1..] + b;
      OrdersWhereAppend(a[1..], b, sel);
    }
  }

  /** The detail DTO of each of some orders, in order (Program.cs:397-409, 498-510). */
  function OrderDetailDtos(orders: seq<TuberOrder>, rows: seq<TuberTopping>, toppings: seq<Topping>): (r: seq<TuberOrderDto>)
    ensures |r| == |orders|
    ensures forall i :: 0 <= i < |orders| ==> r[i] == OrderDetailDto(orders[i], rows, toppings)
  {
    seq(|orders|, i requires 0 <= i < |orders| => OrderDetailDto(orders[i], rows, toppings))
  }

  /** The nested orders of a customer or driver view: exactly the selected orders, each with its toppings. */
  lemma NestedOrdersExactly(orders: seq<TuberOrder>, rows: seq<TuberTopping>, toppings: seq<Topping>, sel: Selector)
    ensures forall v :: v in OrderDetailDtos(OrdersWhere(orders, sel), rows, toppings) <==>
      exists o :: o in orders && Selects(sel, o) && v == OrderDetailDto(o, rows, toppings)
  {
    var sub := OrdersWhere(orders, sel);
    var r := OrderDetailDtos(sub, rows, toppings);
    forall v ensures v in r <==> exists o :: o in orders && Selects(sel, o) && v == OrderDetailDto(o, rows, toppings) {
      if v in r {
        var k :| 0 <= k < |r| && r[k] == v;
        assert sub[k] in sub;
      }
      if exists o :: o in orders && Selects(sel, o) && v == OrderDetailDto(o, rows, toppings) {
        var o :| o in orders && Selects(sel, o) && v == OrderDetailDto(o, rows, toppings);
        var k :| 0 <= k < |sub| && sub[k] == o;
        assert r[k] == v;
      }
    }
  }

  // ---- toppings, join rows, customers, drivers ------------------------------

  /** GET /toppings. */
  function AllToppings(toppings: seq<Topping>): (r: seq<ToppingDto>)
    ensures |r| == |toppings|
    ensures forall i :: 0 <= i < |toppings| ==> r[i] == ToppingDtoOf(toppings[i])
  {
    seq(|toppings|, i requires 0 <= i < |toppings| => ToppingDtoOf(toppings[i]))
  }

  /** GET /toppings/{id}: `FirstOrDefault` gives null and the dereference is caught as NotFound. */
  function ToppingById(toppings: seq<Topping>, id: int32): (r: Response<ToppingDto>)
    ensures r.Ok? || r.NotFound?
    ensures r.NotFound? <==> !HasKey(toppings, ToppingKey, id)
    ensures r.Ok? ==> r.body.id == id
    ensures r.Ok? ==>
      exists k :: 0 <= k < |toppings| && toppings[k].id == id && (forall j :: 0 <= j < k ==> toppings[j].id != id) &&
        r.body == ToppingDtoOf(toppings[k])
  {
    match FirstIndex(toppings, ToppingKey, id)
    case None => NotFound
    case Some(i) => Ok(ToppingDtoOf(toppings[i]))
  }

  function TuberToppingDtoOf(tt: TuberTopping): TuberToppingDto
  {
    TuberToppingDto(tt.id, tt.tuberOrderId, tt.toppingId)
  }

  /** GET /tubertoppings: always Ok. */
  function AllTuberToppings(rows: seq<TuberTopping>): (r: Response<seq<TuberToppingDto>>)
    ensures r.Ok? && |r.body| == |rows|
    ensures forall i :: 0 <= i < |rows| ==> r.body[i] == TuberToppingDtoOf(rows[i])
  {
    Ok(seq(|rows|, i requires 0 <= i < |rows| => TuberToppingDtoOf(rows[i])))
  }

  /** A customer without the nested orders (`TuberOrders` left null). */
  function CustomerListDto(c: Customer): CustomerDto
  {
    CustomerDto(c.id, c.name, c.address, None)
  }

  /** GET /customers. */
  function AllCustomers(customers: seq<Customer>): (r: seq<CustomerDto>)
    ensures |r| == |customers|
    ensures forall i :: 0 <= i < |customers| ==> r[i] == CustomerListDto(customers[i])
  {
    seq(|customers|, i requires 0 <= i < |customers| => CustomerListDto(customers[i]))
  }

  /**
   * GET /customers/{id}: the customer with the orders whose `CustomerId` is
   * `id`, in list order, each with its toppings. A missing customer makes
   * `FirstOrDefault` return null; the dereference is caught as NotFound.
   */
  function CustomerById(customers: seq<Customer>, orders: seq<TuberOrder>, rows: seq<TuberTopping>, toppings: seq<Topping>, id: int32): (r: Response<CustomerDto>)
    ensures r.Ok? || r.NotFound?
    ensures r.NotFound? <==> !HasKey(customers, CustomerKey, id)
    ensures r.Ok? ==> r.body.id == id && r.body.tuberOrders == Some(OrderDetailDtos(OrdersWhere(orders, ByCustomer(id)), rows, toppings))
    ensures r.Ok? ==>
      exists k :: 0 <= k < |customers| && customers[k] == Customer(id, r.body.name, r.body.address) &&
        forall j :: 0 <= j < k ==> customers[j].id != id
  {
    match FirstIndex(customers, CustomerKey, id)
    case None => NotFound
    case Some(i) =>
      var c := customers[i];
      Ok(CustomerDto(c.id, c.name, c.address, Some(OrderDetailDtos(OrdersWhere(orders, ByCustomer(c.id)), rows, toppings))))
  }

  function TuberDriverListDto(d: TuberDriver): TuberDriverDto
  {
    TuberDriverDto(d.id, d.name, None)
  }

  /** GET /tuberdrivers: always Ok. */
  function AllDrivers(drivers: seq<TuberDriver>): (r: Response<seq<TuberDriverDto>>)
    ensures r.Ok? && |r.body| == |drivers|
    ensures forall i :: 0 <= i < |drivers| ==> r.body[i] == TuberDriverListDto(drivers[i])
  {
    Ok(seq(|drivers|, i requires 0 <= i < |drivers| => TuberDriverListDto(drivers[i])))
  }

  /**
   * GET /tuberdrivers/{id}: the driver with the orders whose `TuberDriverId`
   * is `id`, each with its toppings. This handler has no try/catch, so a
   * missing driver's null dereference escapes as an unhandled exception.
   */
  function DriverById(drivers: seq<TuberDriver>, orders: seq<TuberOrder>, rows: seq<TuberTopping>, toppings: seq<Topping>, id: int32): (r: Response<TuberDriverDto>)
    ensures r.Ok? || r.Unhandled?
    ensures r.Unhandled? <==> !HasKey(drivers, TuberDriverKey, id)
    ensures r.Ok? ==> r.body.id == id && r.body.tuberDeliveries == Some(OrderDetailDtos(OrdersWhere(orders, ByDriver(id)), rows, toppings))
    ensures r.Ok? ==>
      exists k :: 0 <= k < |drivers| && drivers[k].id == id && (forall j :: 0 <= j < k ==> drivers[j].id != id) &&
        r.body.name == drivers[k].name
  {
    match FirstIndex(drivers, TuberDriverKey, id)
    case None => Unhandled
    case Some(i) =>
      var d := drivers[i];
      Ok(TuberDriverDto(d.id, d.name, Some(OrderDetailDtos(OrdersWhere(orders, ByDriver(id)), rows, toppings))))
  }
}
