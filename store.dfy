/**
 * The in-memory store of the order-tracking API: the five lists seeded at
 * startup, and one method per route. Mutating routes change the lists in
 * place; reading routes hand the lists to the projections.
 */
module TuberStore {
  import opened Wrappers
  import opened Int32
  import opened Entities
  import opened Tables
  import opened Projection

  const SEED_CUSTOMERS: seq<Customer> := [
    Customer(1, "Claude", "1223 Go Home Way"),
    Customer(2, "Jason", "8675 I got it Street"),
    Customer(3, "Chowder", "455 Crazy Road"),
    Customer(4, "Eugune", "324 Bikini Bottom Road"),
    Customer(5, "Uzu", "565 Burning Leaf Road")
  ]

  const SEED_DRIVERS: seq<TuberDriver> := [
    TuberDriver(1, "John"),
    TuberDriver(2, "Joseph"),
    TuberDriver(3, "Craig")
  ]

  const SEED_TOPPINGS: seq<Topping> := [
    Topping(1, "Cheese"),
    Topping(2, "Butter"),
    Topping(3, "Chives"),
    Topping(4, "Sour Cream"),
    Topping(5, "Bacon")
  ]

  /** The seed orders, all placed `today` (`DateTime.Today`) and none delivered. */
  function SeedOrders(today: Timestamp): seq<TuberOrder>
  {
    [
      TuberOrder(1, today, 5, Some(1), None),
      TuberOrder(2, today, 3, Some(2), None),
      TuberOrder(3, today, 2, Some(3), None)
    ]
  }

  const SEED_TUBER_TOPPINGS: seq<TuberTopping> := [
    TuberTopping(1, 2, 1),
    TuberTopping(2, 3, 3),
    TuberTopping(3, 3, 2),
    TuberTopping(4, 3, 5)
  ]

  class Store {
    var customers: seq<Customer>
    var tuberDrivers: seq<TuberDriver>
    var toppings: seq<Topping>
    var tuberOrders: seq<TuberOrder>
    var tuberToppings: seq<TuberTopping>

    /** Ids are unique in every list. The seed has it; every route keeps it until an id would pass `int.MaxValue`. */
    ghost predicate Valid()
      reads this
    {
      && UniqueKeys(customers, CustomerKey)
      && UniqueKeys(tuberDrivers, TuberDriverKey)
      && UniqueKeys(toppings, ToppingKey)
      && UniqueKeys(tuberOrders, TuberOrderKey)
      && UniqueKeys(tuberToppings, TuberToppingKey)
    }

    /** The lists as the program seeds them at startup. */
    constructor (today: Timestamp)
      ensures customers == SEED_CUSTOMERS && tuberDrivers == SEED_DRIVERS && toppings == SEED_TOPPINGS
      ensures tuberOrders == SeedOrders(today) && tuberToppings == SEED_TUBER_TOPPINGS
      ensures Valid()
    {
      customers := SEED_CUSTOMERS;
      tuberDrivers := SEED_DRIVERS;
      toppings := SEED_TOPPINGS;
      tuberOrders := SeedOrders(today);
      tuberToppings := SEED_TUBER_TOPPINGS;
    }

    // ---- tuber orders -------------------------------------------------------

    /** GET /tuberorders. */
    method ListOrders() returns (r: seq<TuberOrderDto>)
      ensures r == AllOrders(tuberOrders, tuberToppings, toppings)
    {
      r := AllOrders(tuberOrders, tuberToppings, toppings);
    }

    /** GET /tuberorders/{id}. */
    method GetOrder(id: int32) returns (r: Response<TuberOrderDto>)
      ensures r == OrderById(tuberOrders, tuberToppings, toppings, id)
    {
      r := OrderById(tuberOrders, tuberToppings, toppings, id);
    }

    /**
     * POST /tuberorders: the posted order gets id `Max + 1` and the current
     * time as `OrderPlacedOnDate`; its other fields are stored as posted. On an
     * empty list `Max` throws, and the handler answers NotFound.
     */
    method CreateOrder(posted: TuberOrder, now: Timestamp) returns (r: Response<TuberOrderDto>)
      modifies this
      ensures customers == old(customers) && tuberDrivers == old(tuberDrivers) && toppings == old(toppings)
      ensures tuberToppings == old(tuberToppings)
      ensures old(tuberOrders) == [] ==> r == NotFound && tuberOrders == []
      ensures old(tuberOrders) != [] ==>
        var o := posted.(id := NextKey(old(tuberOrders), TuberOrderKey), orderPlacedOnDate := now);
        tuberOrders == old(tuberOrders) + [o] && r == Created(BareOrderDto(o))
      ensures old(Valid()) && !old(HasKey(tuberOrders, TuberOrderKey, MAX)) ==> Valid()
    {
      if tuberOrders == [] {
        r := NotFound;
        return;
      }
      var o := posted.(id := NextKey(tuberOrders, TuberOrderKey), orderPlacedOnDate := now);
      if Valid() && !HasKey(tuberOrders, TuberOrderKey, MAX) {
        AppendFreshKeepsUnique(tuberOrders, TuberOrderKey, o);
      }
      tuberOrders := tuberOrders + [o];
      r := Created(BareOrderDto(o));
    }

    /**
     * PUT /tuberorders/{id}: overwrite the found order's `TuberDriverId` with
     * the posted one and nothing else; a missing order is NotFound.
     */
    method ReassignDriver(id: int32, posted: TuberOrder) returns (r: Response<TuberOrderDto>)
      modifies this
      ensures customers == old(customers) && tuberDrivers == old(tuberDrivers) && toppings == old(toppings)
      ensures tuberToppings == old(tuberToppings)
      ensures !old(HasKey(tuberOrders, TuberOrderKey, id)) ==> r == NotFound && tuberOrders == old(tuberOrders)
      ensures old(HasKey(tuberOrders, TuberOrderKey, id)) ==>
        var i := FirstIndex(old(tuberOrders), TuberOrderKey, id).value;
        tuberOrders == old(tuberOrders)[i := old(tuberOrders)[i].(tuberDriverId := posted.tuberDriverId)] &&
        r == Ok(BareOrderDto(tuberOrders[i]))
      ensures old(Valid()) ==> Valid()
    {
      var found := FirstIndex(tuberOrders, TuberOrderKey, id);
      if found.None? {
        r := NotFound;
        return;
      }
      var i := found.value;
      var o := tuberOrders[i].(tuberDriverId := posted.tuberDriverId);
      if Valid() {
        UpdateSameKeyKeepsUnique(tuberOrders, TuberOrderKey, i, o);
      }
      tuberOrders := tuberOrders[i := o];
      r := Ok(BareOrderDto(o));
    }

    /**
     * POST /tuberorders/{id}/complete: set the found order's `DeliveredOnDate`
     * to the current time, whatever it was. `First` throws on a missing order,
     * and the handler answers BadRequest.
     */
    method CompleteOrder(id: int32, now: Timestamp) returns (r: Response<TuberOrderDto>)
      modifies this
      ensures customers == old(customers) && tuberDrivers == old(tuberDrivers) && toppings == old(toppings)
      ensures tuberToppings == old(tuberToppings)
      ensures !old(HasKey(tuberOrders, TuberOrderKey, id)) ==> r == BadRequest && tuberOrders == old(tuberOrders)
      ensures old(HasKey(tuberOrders, TuberOrderKey, id)) ==>
        var i := FirstIndex(old(tuberOrders), TuberOrderKey, id).value;
        tuberOrders == old(tuberOrders)[i := old(tuberOrders)[i].(deliveredOnDate := Some(now))] &&
        r == Ok(BareOrderDto(tuberOrders[i]))
      ensures old(Valid()) ==> Valid()
    {
      var found := FirstIndex(tuberOrders, TuberOrderKey, id);
      if found.None? {
        r := BadRequest;
        return;
      }
      var i := found.value;
      var o := tuberOrders[i].(deliveredOnDate := Some(now));
      if Valid() {
        UpdateSameKeyKeepsUnique(tuberOrders, TuberOrderKey, i, o);
      }
      tuberOrders := tuberOrders[i := o];
      r := Ok(BareOrderDto(o));
    }

    // ---- toppings -----------------------------------------------------------

    /** GET /toppings. */
    method ListToppings() returns (r: seq<ToppingDto>)
      ensures r == AllToppings(toppings)
    {
      r := AllToppings(toppings);
    }

    /** GET /toppings/{id}. */
    method GetTopping(id: int32) returns (r: Response<ToppingDto>)
      ensures r == ToppingById(toppings, id)
    {
      r := ToppingById(toppings, id);
    }

    // ---- tuber toppings (join rows) ----------------------------------------

    /** GET /tubertoppings. */
    method ListTuberToppings() returns (r: Response<seq<TuberToppingDto>>)
      ensures r == AllTuberToppings(tuberToppings)
    {
      r := AllTuberToppings(tuberToppings);
    }

    /**
     * POST /tubertoppings: append the posted row with id `Max + 1`. Neither the
     * order nor the topping is looked up, and an existing identical pair is no
     * obstacle. On an empty list `Max` throws, and the handler answers NotFound.
     */
    method AttachTopping(posted: TuberTopping) returns (r: Response<TuberToppingDto>)
      modifies this
      ensures customers == old(customers) && tuberDrivers == old(tuberDrivers) && toppings == old(toppings)
      ensures tuberOrders == old(tuberOrders)
      ensures old(tuberToppings) == [] ==> r == NotFound && tuberToppings == []
      ensures old(tuberToppings) != [] ==>
        var row := posted.(id := NextKey(old(tuberToppings), TuberToppingKey));
        tuberToppings == old(tuberToppings) + [row] && r == Created(TuberToppingDtoOf(row))
      ensures old(Valid()) && !old(HasKey(tuberToppings, TuberToppingKey, MAX)) ==> Valid()
    {
      if tuberToppings == [] {
        r := NotFound;
        return;
      }
      var row := posted.(id := NextKey(tuberToppings, TuberToppingKey));
      if Valid() && !HasKey(tuberToppings, TuberToppingKey, MAX) {
        AppendFreshKeepsUnique(tuberToppings, TuberToppingKey, row);
      }
      tuberToppings := tuberToppings + [row];
      r := Created(TuberToppingDtoOf(row));
    }

    /** DELETE /tubertoppings/{id}: remove the row if there is one; NoContent either way. */
    method DetachTopping(id: int32) returns (r: Response<()>)
      modifies this
      ensures customers == old(customers) && tuberDrivers == old(tuberDrivers) && toppings == old(toppings)
      ensures tuberOrders == old(tuberOrders)
      ensures tuberToppings == RemoveFirst(old(tuberToppings), TuberToppingKey, id)
      ensures r == NoContent
      ensures old(Valid()) ==> Valid() && !HasKey(tuberToppings, TuberToppingKey, id)
    {
      if Valid() {
        RemoveFirstOfUnique(tuberToppings, TuberToppingKey, id);
      }
      tuberToppings := RemoveFirst(tuberToppings, TuberToppingKey, id);
      r := NoContent;
    }

    // ---- customers ----------------------------------------------------------

    /** GET /customers. */
    method ListCustomers() returns (r: seq<CustomerDto>)
      ensures r == AllCustomers(customers)
    {
      r := AllCustomers(customers);
    }

    /** GET /customers/{id}. */
    method GetCustomer(id: int32) returns (r: Response<CustomerDto>)
      ensures r == CustomerById(customers, tuberOrders, tuberToppings, toppings, id)
    {
      r := CustomerById(customers, tuberOrders, tuberToppings, toppings, id);
    }

    /**
     * POST /customers: append the posted customer with id `Max + 1`. On an
     * empty list `Max` throws, and the handler answers NotFound.
     */
    method CreateCustomer(posted: Customer) returns (r: Response<CustomerDto>)
      modifies this
      ensures tuberDrivers == old(tuberDrivers) && toppings == old(toppings)
      ensures tuberOrders == old(tuberOrders) && tuberToppings == old(tuberToppings)
      ensures old(customers) == [] ==> r == NotFound && customers == []
      ensures old(customers) != [] ==>
        var c := posted.(id := NextKey(old(customers), CustomerKey));
        customers == old(customers) + [c] && r == Created(CustomerListDto(c))
      ensures old(Valid()) && !old(HasKey(customers, CustomerKey, MAX)) ==> Valid()
    {
      if customers == [] {
        r := NotFound;
        return;
      }
      var c := posted.(id := NextKey(customers, CustomerKey));
      if Valid() && !HasKey(customers, CustomerKey, MAX) {
        AppendFreshKeepsUnique(customers, CustomerKey, c);
      }
      customers := customers + [c];
      r := Created(CustomerListDto(c));
    }

    /**
     * DELETE /customers/{id}: remove the customer if there is one; NoContent
     * either way. The customer's orders stay, with a dangling `CustomerId`.
     */
    method DeleteCustomer(id: int32) returns (r: Response<()>)
      modifies this
      ensures tuberDrivers == old(tuberDrivers) && toppings == old(toppings)
      ensures tuberOrders == old(tuberOrders) && tuberToppings == old(tuberToppings)
      ensures customers == RemoveFirst(old(customers), CustomerKey, id)
      ensures r == NoContent
      ensures old(Valid()) ==> Valid() && !HasKey(customers, CustomerKey, id)
    {
      if Valid() {
        RemoveFirstOfUnique(customers, CustomerKey, id);
      }
      customers := RemoveFirst(customers, CustomerKey, id);
      r := NoContent;
    }

    // ---- tuber drivers ------------------------------------------------------

    /** GET /tuberdrivers. */
    method ListDrivers() returns (r: Response<seq<TuberDriverDto>>)
      ensures r == AllDrivers(tuberDrivers)
    {
      r := AllDrivers(tuberDrivers);
    }

    /** GET /tuberdrivers/{id}. */
    method GetDriver(id: int32) returns (r: Response<TuberDriverDto>)
      ensures r == DriverById(tuberDrivers, tuberOrders, tuberToppings, toppings, id)
    {
      r := DriverById(tuberDrivers, tuberOrders, tuberToppings, toppings, id);
    }
  }
}
