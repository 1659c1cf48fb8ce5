# TuberTreats order tracking, modelled in Dafny

TuberTreats is a small food-delivery backend. Customers place orders, each
order has a driver, and toppings attach to orders through `TuberTopping` join
rows. An order moves from placed to delivered. The whole program is one file,
`TuberTreats/Program.cs`. It seeds five lists at startup: customers, drivers,
toppings, orders and join rows. Sixteen route handlers then read and change
those lists.

This project models that store and its handlers:

- `Entities` (entities.dfy): the five record types, the DTOs the routes return,
  and `Response`, the outcome kind of a route (Ok, Created, NoContent,
  NotFound, BadRequest, or an exception no handler catches).
- `Int32` (int32.dfy): C#'s `int` with unchecked wrap-around.
- `Tables` (tables.dfy): the list operations all collections share: lookup by id
  (`First` / `FirstOrDefault`), the next id (`Max(x => x.Id) + 1`), and remove by id.
- `Projection` (projection.dfy): the LINQ joins as pure functions, and the
  lemmas about them. These build an order with its toppings, a customer with
  their orders, and a driver with their deliveries.
- `TuberStore` (store.dfy): the seed data and the class `Store`. Its five `seq`
  fields are the program's lists, and it has one method per route. Mutating
  methods reassign the fields. Each one states the whole new state in terms of
  the old state, and whether the id-uniqueness invariant `Valid()` is kept.
- `Lifecycle` (lifecycle.dfy): lemmas on how each mutating route changes the
  views.
- `Scenario` (scenario.dfy): facts about the seed data, and a client method.
  The client calls a sequence of routes on a fresh store and asserts what each
  answer must be; the verifier proves the asserts.

Modelling decisions:

- A record stored in a list is a value. A handler that overwrites a field of
  the found object becomes a sequence update at that object's index. The two
  agree here: every stored object comes from its own request body, so no
  object sits in two places.
- `DateTime.Now` and `DateTime.Today` become `Timestamp` parameters the caller
  supplies.
- Ids are 32-bit. The next id is `Max + 1` in unchecked arithmetic, so it wraps
  to `int.MinValue` once some id is `int.MaxValue`. The freshness results hold
  as long as no id equals `int.MaxValue`.
- Calling `Max` on an empty list throws `InvalidOperationException`. The create
  handlers catch that and answer NotFound. Deletes can empty the customer and
  join-row lists, so the model keeps this case.
- The `TuberTreats.Models` classes are not part of this model. Their fields come
  from the initialisers in Program.cs. `DeliveredOnDate` is nullable there
  (Program.cs:85, 145), so it is an `Option`. `TuberDriverId` is assumed to be
  nullable and is an `Option` too. Nothing in Program.cs shows that, but the
  `Option` also covers a non-nullable field: for a non-null id, no result
  changes. Every other field is non-null.

Four behaviours of the code are easy to misread; the model follows the code:

- Create order stores the `DeliveredOnDate` the client posted. It does not
  reset it to null (Program.cs:189-209).
- A missing order on complete answers BadRequest, not NotFound
  (Program.cs:271-274).
- A missing driver on the driver detail route is an unhandled exception, not
  NotFound. That handler has no `try` (Program.cs:488-495).
- Completing an order stores whatever time the caller passes in. Nothing makes
  successive delivery dates increase.

## Model

| member | source | states |
|---|---|---|
| Int32.Wrap | TuberTreats/Program.cs:195 | The result is in the 32-bit range, is congruent to the argument modulo 2^32, and equals the argument when the argument is already in range |
| Tables.FirstIndex | TuberTreats/Program.cs:225-229 | Returns None exactly when no record has the id; otherwise returns the index of a record with the id, and no earlier record has it |
| Tables.FirstIndexOfUnique | TuberTreats/Program.cs:163 | When ids are unique, looking up the id of record k finds index k |
| Tables.MaxKey | TuberTreats/Program.cs:195 | On a non-empty list, the result is an id that occurs and is at least every id |
| Tables.NextKey | TuberTreats/Program.cs:195 | When no id is int.MaxValue, the next id is one more than an existing id, greater than every id, and unused; otherwise it wraps to int.MinValue |
| Tables.AppendFreshKeepsUnique | TuberTreats/Program.cs:195-197 | Appending a record with an unused id keeps the ids unique |
| Tables.UpdateSameKeyKeepsUnique | TuberTreats/Program.cs:225-230 | Overwriting a record with one that has the same id keeps the ids unique |
| Tables.RemoveFirst | TuberTreats/Program.cs:357-358 | With no matching id the list is unchanged; otherwise exactly the first record with the id is cut out, the rest keep their order, and the list is one shorter |
| Tables.RemoveAtKeepsLookup | TuberTreats/Program.cs:357-358 | Taking out a record whose id is not c leaves the lookup of c finding the same record, or nothing |
| Tables.RemoveFirstKeepsOtherLookups | TuberTreats/Program.cs:454-455 | Removing by one id leaves the lookup of every other id finding the same record, or nothing |
| Tables.RemoveFirstOfUnique | TuberTreats/Program.cs:454-455 | With unique ids, afterwards no record has the removed id, every other record is still there, and the ids stay unique |
| Projection.ToppingsWithId | TuberTreats/Program.cs:148 | Holds exactly the DTOs of the toppings with that id, every entry has that id, and it is empty when no topping has the id |
| Projection.ToppingsWithIdIsLookup | TuberTreats/Program.cs:175 | With unique topping ids, filtering by id gives the single looked-up topping, or nothing |
| Projection.OrderToppings | TuberTreats/Program.cs:146-150 | A topping DTO is in an order's Toppings exactly when some join row of that order names a topping with that id, in both directions |
| Projection.OrderToppingsAppend | TuberTreats/Program.cs:173-177 | The Toppings list follows join-row order: the view of rows a + b is the view of a followed by the view of b |
| Projection.OrderToppingsSplit | TuberTreats/Program.cs:404-408 | An order's Toppings is the view of the rows before row i, then row i's contribution, then the view of the rows after it |
| Projection.OrderToppingsIsLookup | TuberTreats/Program.cs:505-509 | With unique topping ids, the join pipeline equals the lookup definition: for each of the order's rows in order, the topping with that id if there is one |
| Projection.DanglingRowContributesNothing | TuberTreats/Program.cs:148 | A join row whose ToppingId matches no topping leaves every order's Toppings unchanged, wherever it stands |
| Projection.AttachExtendsToppings | TuberTreats/Program.cs:333-334 | An appended join row adds its topping at the end of its own order's Toppings and changes no other order's |
| Projection.DetachRemovesRowToppings | TuberTreats/Program.cs:357-358 | Removing a join row cuts exactly that row's contribution out of each order's Toppings, at its position; a missing row changes nothing |
| Projection.AllOrders | TuberTreats/Program.cs:139-151 | One DTO per order in list order, each with its joined toppings and DeliveredOnDate null |
| Projection.OrderById | TuberTreats/Program.cs:161-184 | Answers NotFound exactly when no order has the id; otherwise Ok with the detail DTO of the first order with that id and that id's joined toppings |
| Projection.ListAndDetailAgree | TuberTreats/Program.cs:145-172 | For each order, the list view and the single view give the same toppings; the list view's DeliveredOnDate is null; with unique ids the single view shows the stored date and the two DTOs differ only there |
| Projection.OrdersWhere | TuberTreats/Program.cs:386-388 | Holds exactly the orders selected by customer id (or by driver id) and is no longer than the orders list |
| Projection.OrdersWhereAppend | TuberTreats/Program.cs:489-491 | The selection keeps the orders-list order: it distributes over concatenation |
| Projection.OrderDetailDtos | TuberTreats/Program.cs:397-409 | One detail DTO (stored fields plus joined toppings) per order, in order |
| Projection.NestedOrdersExactly | TuberTreats/Program.cs:396-410 | A nested order DTO appears exactly when it is the detail DTO of an order with the selected customer or driver id, in both directions |
| Projection.AllToppings | TuberTreats/Program.cs:283 | One topping DTO per topping, in list order |
| Projection.ToppingById | TuberTreats/Program.cs:292-300 | Answers NotFound exactly when no topping has the id; otherwise Ok with the DTO of the first topping with that id |
| Projection.AllTuberToppings | TuberTreats/Program.cs:311-317 | Always Ok, with one join-row DTO per row, in list order |
| Projection.AllCustomers | TuberTreats/Program.cs:369-374 | One DTO per customer, in list order, with nested orders left null |
| Projection.CustomerById | TuberTreats/Program.cs:383-417 | Answers NotFound exactly when no customer has the id; otherwise Ok with the name and address of the first customer with that id and that customer's orders, each with toppings |
| Projection.AllDrivers | TuberTreats/Program.cs:472-474 | Always Ok, with one DTO per driver, in order, with deliveries left null |
| Projection.DriverById | TuberTreats/Program.cs:488-513 | Is an unhandled exception exactly when no driver has the id; otherwise Ok with the name of the first driver with that id and the orders whose TuberDriverId is the id, each with toppings |
| TuberStore.Store.constructor | TuberTreats/Program.cs:27-130 | The lists hold exactly the seed rows, with the seed orders placed at the given time, and all ids are unique |
| TuberStore.Store.ListOrders | TuberTreats/Program.cs:135-154 | Answers with Projection.AllOrders over the current lists: every order, toppings joined, DeliveredOnDate null |
| TuberStore.Store.GetOrder | TuberTreats/Program.cs:157-186 | Answers with Projection.OrderById over the current lists: NotFound for a missing id, else the order with its toppings and stored DeliveredOnDate |
| TuberStore.Store.CreateOrder | TuberTreats/Program.cs:189-216 | On an empty list answers NotFound and changes nothing. Otherwise appends the posted order with id Max + 1 and the given time as OrderPlacedOnDate, answers Created with the DTO without toppings, leaves the other lists alone, and keeps ids unique while no id is int.MaxValue |
| TuberStore.Store.ReassignDriver | TuberTreats/Program.cs:219-248 | A missing id answers NotFound and changes nothing. Otherwise only the found order's TuberDriverId takes the posted value; every other field, order and list is unchanged, the answer is Ok with the updated DTO, and ids stay unique |
| TuberStore.Store.CompleteOrder | TuberTreats/Program.cs:251-276 | A missing id answers BadRequest and changes nothing. Otherwise only the found order's DeliveredOnDate becomes the given time, even if it was already set; the answer is Ok with the updated DTO |
| TuberStore.Store.ListToppings | TuberTreats/Program.cs:279-285 | Answers with Projection.AllToppings over the current list |
| TuberStore.Store.GetTopping | TuberTreats/Program.cs:288-302 | Answers with Projection.ToppingById over the current list: NotFound for a missing id |
| TuberStore.Store.ListTuberToppings | TuberTreats/Program.cs:305-324 | Answers with Projection.AllTuberToppings over the current list: always Ok |
| TuberStore.Store.AttachTopping | TuberTreats/Program.cs:327-350 | On an empty list answers NotFound and changes nothing. Otherwise appends the posted row with id Max + 1, without checking the order, the topping or duplicates, answers Created, and keeps ids unique while no id is int.MaxValue |
| TuberStore.Store.DetachTopping | TuberTreats/Program.cs:353-361 | Removes the first row with the id, or nothing when there is none; always answers NoContent; touches no other list; with unique ids no row with that id remains |
| TuberStore.Store.ListCustomers | TuberTreats/Program.cs:365-376 | Answers with Projection.AllCustomers over the current list: nested orders left null |
| TuberStore.Store.GetCustomer | TuberTreats/Program.cs:379-419 | Answers with Projection.CustomerById over the current lists: NotFound for a missing id, else the customer's orders with their toppings |
| TuberStore.Store.CreateCustomer | TuberTreats/Program.cs:422-445 | On an empty list answers NotFound and changes nothing. Otherwise appends the posted customer with id Max + 1, answers Created without nested orders, and keeps ids unique while no id is int.MaxValue |
| TuberStore.Store.DeleteCustomer | TuberTreats/Program.cs:448-463 | Removes the first customer with the id, or nothing when there is none; always answers NoContent; the orders list is unchanged (no cascade) |
| TuberStore.Store.ListDrivers | TuberTreats/Program.cs:466-481 | Answers with Projection.AllDrivers over the current list: always Ok |
| TuberStore.Store.GetDriver | TuberTreats/Program.cs:484-515 | Answers with Projection.DriverById over the current lists: an unhandled exception for a missing id, else the driver's deliveries with their toppings |
| Lifecycle.ReassignChangesOnlyDriver | TuberTreats/Program.cs:225-241 | After a reassignment, the order's single view is the old view with only TuberDriverId replaced; customer, dates and toppings are as before |
| Lifecycle.CompleteChangesOnlyDelivery | TuberTreats/Program.cs:257-268 | After completion, the order's single view is the old view with DeliveredOnDate set to the given time (non-null), whatever it was before; toppings are unchanged |
| Lifecycle.ReassignMovesDelivery | TuberTreats/Program.cs:230 | The reassigned order is among driver d's deliveries exactly when the new TuberDriverId is d |
| Lifecycle.OrdersWhereSplit | TuberTreats/Program.cs:386-388 | The selected orders are those selected before order i, then order i if selected, then those after it |
| Lifecycle.ReassignKeepsCustomerOrders | TuberTreats/Program.cs:230 | A reassignment keeps each customer's order count and the position of every order in the customer's list |
| Lifecycle.AttachTwiceDistinctIds | TuberTreats/Program.cs:333-334 | Two attaches in a row, even for the same pair, get ids that are unused at the time and one apart |
| Lifecycle.DuplicateAttachRepeatsTopping | TuberTreats/Program.cs:333-334 | Attaching the same (order, topping) pair twice lists that topping twice at the end of the order's Toppings |
| Lifecycle.DeletedCustomerNotFound | TuberTreats/Program.cs:454-455 | With unique ids, the detail view of a deleted customer is NotFound |
| Lifecycle.DeleteKeepsOtherCustomers | TuberTreats/Program.cs:454-455 | Deleting one customer leaves every other customer's detail view, nested orders included, as it was, even when ids repeat |
| Scenario.SeedToppingById | TuberTreats/Program.cs:68-75 | Each seeded topping id matches exactly one topping |
| Scenario.SeedOrderThreeToppings | TuberTreats/Program.cs:104-130 | Seed order 3's toppings are Chives, Butter, Bacon: join-row order, not topping-id order |
| Scenario.SeedOrderOneToppings | TuberTreats/Program.cs:77-130 | Seed order 1 has no toppings |
| Scenario.SeedNextTuberToppingId | TuberTreats/Program.cs:333 | The first join row attached to the seed gets id 5 |
| Scenario.SeedAttachCheese | TuberTreats/Program.cs:333-334 | After attaching topping 1 to seed order 1, that order's toppings are exactly Cheese |

## Left out

- ASP.NET hosting, dependency injection, Swagger, HTTPS redirection and `app.Run()` (Program.cs:4-25, 517) are framework plumbing.
- Routing, model binding and JSON serialization are not modelled: URL paths, bodies that fail to bind, and the location strings of `Results.Created`. Each handler is a method that takes parsed arguments and returns a `Response`.
- `DateTime.Now` and `DateTime.Today` are not modelled. The caller passes the time in as a `Timestamp`, which the model only stores and compares for equality.
- Concurrent requests are not modelled. The lists have no locking; the model runs one route at a time.
- LINQ's deferred evaluation is not modelled. The list routes return lazy `Select` results, which serialization enumerates within the same request, so nothing changes in between.
- `TuberStore.Store.CreateOrder`, `AttachTopping` and `CreateCustomer` promise unique ids only while no id equals `int.MaxValue`. After that, `Max + 1` wraps and can repeat an id.
