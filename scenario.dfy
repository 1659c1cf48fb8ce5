/**
 * What the contracts let a caller conclude about the seeded store: a few
 * requests in a row, with the answers each one must give.
 */
module Scenario {
  import opened Wrappers
  import opened Int32
  import opened Entities
  import opened Tables
  import opened Projection
  import opened TuberStore

  /** The seed toppings have unique ids, so each id names exactly one topping. */
  lemma SeedToppingById(k: nat)
    requires k < |SEED_TOPPINGS|
    ensures ToppingsWithId(SEED_TOPPINGS, SEED_TOPPINGS[k].id) == [ToppingDtoOf(SEED_TOPPINGS[k])]
  {
    assert UniqueKeys(SEED_TOPPINGS, ToppingKey);
    FirstIndexOfUnique(SEED_TOPPINGS, ToppingKey, k);
    ToppingsWithIdIsLookup(SEED_TOPPINGS, SEED_TOPPINGS[k].id);
  }

  /** The seed's order 3 lists its toppings in join-row order (Chives, Butter, Bacon), not by topping id. */
  lemma SeedOrderThreeToppings()
    ensures OrderToppings(SEED_TUBER_TOPPINGS, SEED_TOPPINGS, 3) ==
      [ToppingDto(3, "Chives"), ToppingDto(2, "Butter"), ToppingDto(5, "Bacon")]
  {
    var rows, tops := SEED_TUBER_TOPPINGS, SEED_TOPPINGS;
    SeedToppingById(2);
    SeedToppingById(1);
    SeedToppingById(4);
    var chives, butter, bacon := ToppingDto(3, "Chives"), ToppingDto(2, "Butter"), ToppingDto(5, "Bacon");
    assert rows[3..][1..] == [];
    assert OrderToppings(rows[3..], tops, 3) == [bacon] + OrderToppings([], tops, 3);
    assert rows[2..][1..] == rows[3..];
    assert OrderToppings(rows[2..], tops, 3) == [butter] + OrderToppings(rows[3..], tops, 3);
    assert rows[1..][1..] == rows[2..];
    assert OrderToppings(rows[1..], tops, 3) == [chives] + OrderToppings(rows[2..], tops, 3);
    assert OrderToppings(rows, tops, 3) == [] + OrderToppings(rows[1..], tops, 3);
  }

  /** In the seed, order 1 has no join rows and so no toppings. */
  lemma SeedOrderOneToppings()
    ensures OrderToppings(SEED_TUBER_TOPPINGS, SEED_TOPPINGS, 1) == []
  {
    var rows, tops := SEED_TUBER_TOPPINGS, SEED_TOPPINGS;
    assert rows[3..][1..] == [];
    assert OrderToppings(rows[3..], tops, 1) == [];
    assert rows[2..][1..] == rows[3..];
    assert OrderToppings(rows[2..], tops, 1) == [];
    assert rows[1..][1..] == rows[2..];
    assert OrderToppings(rows[1..], tops, 1) == [];
  }

  /** Attaching topping 1 to order 1 of the seed gives that order exactly Cheese. */
  lemma SeedAttachCheese()
    ensures OrderToppings(SEED_TUBER_TOPPINGS + [TuberTopping(5, 1, 1)], SEED_TOPPINGS, 1) == [ToppingDto(1, "Cheese")]
  {
    SeedOrderOneToppings();
    SeedToppingById(0);
    assert ToppingsWithId(SEED_TOPPINGS, 1) == [ToppingDto(1, "Cheese")];
    AttachExtendsToppings(SEED_TUBER_TOPPINGS, TuberTopping(5, 1, 1), SEED_TOPPINGS, 1);
  }

  /** The first join row attached to the seed gets id 5. */
  lemma SeedNextTuberToppingId()
    ensures NextKey(SEED_TUBER_TOPPINGS, TuberToppingKey) == 5
  {
    assert !HasKey(SEED_TUBER_TOPPINGS, TuberToppingKey, MAX);
  }

  /**
   * Order 1 starts without toppings; attaching topping 1 gives it Cheese;
   * completing it sets the delivery date and leaves the toppings as they were;
   * a customer that does not exist is NotFound.
   */
  method AttachThenComplete(today: Timestamp, now: Timestamp)
  {
    var store := new Store(today);
    var first := store.GetOrder(1);
    assert TuberOrderKey(store.tuberOrders[0]) == 1;
    assert first.Ok? && first.body.deliveredOnDate == None;

    SeedNextTuberToppingId();
    var attached := store.AttachTopping(TuberTopping(0, 1, 1));
    assert attached == Created(TuberToppingDto(5, 1, 1));
    assert store.tuberToppings == SEED_TUBER_TOPPINGS + [TuberTopping(5, 1, 1)];

    SeedAttachCheese();
    var withCheese := store.GetOrder(1);
    assert withCheese.Ok? && withCheese.body.toppings == Some([ToppingDto(1, "Cheese")]);

    assert FirstIndex(store.tuberOrders, TuberOrderKey, 1) == Some(0);
    var done := store.CompleteOrder(1, now);
    assert done.Ok? && done.body.deliveredOnDate == Some(now);

    var again := store.GetOrder(1);
    assert again.Ok? && again.body.toppings == Some([ToppingDto(1, "Cheese")]);
    assert again.body.deliveredOnDate == Some(now);

    assert store.customers == SEED_CUSTOMERS;
    assert !HasKey(SEED_CUSTOMERS, CustomerKey, 999);
    var missing := store.GetCustomer(999);
    assert missing == NotFound;
  }
}
