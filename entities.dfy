/**
 * The records kept by the order-tracking API, the DTO shapes its routes
 * return, and the outcome kinds of a route.
 */
module Entities {
  import opened Wrappers
  import opened Int32

  /** A point in time (`DateTime`); only equality matters to the model. */
  type Timestamp = int

  datatype Customer = Customer(id: int32, name: string, address: string)

  datatype TuberDriver = TuberDriver(id: int32, name: string)

  datatype Topping = Topping(id: int32, name: string)

  /** An order; `deliveredOnDate == None` means "not delivered yet". */
  datatype TuberOrder = TuberOrder(
    id: int32,
    orderPlacedOnDate: Timestamp,
    customerId: int32,
    tuberDriverId: Option<int32>,
    deliveredOnDate: Option<Timestamp>)

  /** A join row: topping `toppingId` is on order `tuberOrderId`. */
  datatype TuberTopping = TuberTopping(id: int32, tuberOrderId: int32, toppingId: int32)

  datatype ToppingDto = ToppingDto(id: int32, name: string)

  /** `toppings == None` is a DTO whose `Toppings` list was left null. */
  datatype TuberOrderDto = TuberOrderDto(
    id: int32,
    orderPlacedOnDate: Timestamp,
    customerId: int32,
    tuberDriverId: Option<int32>,
    deliveredOnDate: Option<Timestamp>,
    toppings: Option<seq<ToppingDto>>)

  datatype CustomerDto = CustomerDto(id: int32, name: string, address: string, tuberOrders: Option<seq<TuberOrderDto>>)

  datatype TuberDriverDto = TuberDriverDto(id: int32, name: string, tuberDeliveries: Option<seq<TuberOrderDto>>)

  datatype TuberToppingDto = TuberToppingDto(id: int32, tuberOrderId: int32, toppingId: int32)

  /**
   * What a route hands back: `Results.Ok`, `Results.Created` (its location
   * string is not modelled), `Results.NoContent`, `Results.NotFound`,
   * `Results.BadRequest`, or an exception that no handler catches.
   */
  datatype Response<+T> = Ok(body: T) | Created(body: T) | NoContent | NotFound | BadRequest | Unhandled

  // The `Id` property of each record, as a key for the generic table operations.
  function CustomerKey(c: Customer): int32 { c.id }
  function TuberDriverKey(d: TuberDriver): int32 { d.id }
  function ToppingKey(t: Topping): int32 { t.id }
  function TuberOrderKey(o: TuberOrder): int32 { o.id }
  function TuberToppingKey(tt: TuberTopping): int32 { tt.id }
}
