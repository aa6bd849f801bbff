/**
 * Concrete runs of single commands on small containers: a completed
 * delivery, a delivery the shop refuses and that is rolled back, two
 * collections, two validator verdicts, and the capitalised warehouse word.
 */
module Scenarios {
  import opened Text
  import opened Totals
  import opened Inventory
  import opened Commands
  import opened Transfer

  /** A warehouse holding `qty` units of one title. */
  function OneTitle(title: string, qty: int, capacity: int): Store {
    Store(map[title := qty], capacity)
  }

  /** A one-title container has its capacity less that title's quantity free. */
  lemma OneTitleFree(title: string, qty: int, capacity: int)
    ensures FreeSpace(OneTitle(title, qty, capacity)) == capacity - qty
  {
    TotalRemove(map[title := qty], title);
    assert map[title := qty] - {title} == map[];
  }

  /** The first prompt template filled with 5 елки, as a user would copy it. */
  const Deliver5: seq<string> := ["Доставить", "5", "елки", "из", "склад", "в", "магазин"]

  lemma Deliver5Accepted()
    ensures CheckRequest(Deliver5) == Accepted(5)
  {
    RenderAccepted(Delivery(5, "елки"));
    assert Render(Delivery(5, "елки")) == Deliver5;
  }

  /** Warehouse {елки: 10}, empty shop: delivering 5 leaves 5 in each. */
  lemma DeliveryCompletes()
    ensures Handle(World(OneTitle("елки", 10, 100), EmptyShop()), Deliver5)
            == Step(Done, World(OneTitle("елки", 5, 100), OneTitle("елки", 5, 25)))
  {
    Deliver5Accepted();
    EmptyContainersValid();
    var w := World(OneTitle("елки", 10, 100), EmptyShop());
    var taken := Remove(w.warehouse, "елки", 5);
    assert taken.after.items == map["елки" := 5];
    var placed := ShopAdd(w.shop, "елки", 5);
    assert placed.after.items == map["елки" := 5];
  }

  /** A shop holding one unit each of five titles other than елки. */
  function FullVarietyShop(): Store {
    Store(map["чай" := 1, "сок" := 1, "мед" := 1, "сыр" := 1, "хлеб" := 1], ShopCapacity)
  }

  /** Warehouse {елки: 10}, a shop already at five titles: the delivery is refused and rolled back. */
  lemma DeliveryRolledBack()
    ensures Handle(World(OneTitle("елки", 10, 100), FullVarietyShop()), Deliver5)
            == Step(Refused(TooManyTitles(5)), World(OneTitle("елки", 10, 100), FullVarietyShop()))
  {
    Deliver5Accepted();
    var w := World(OneTitle("елки", 10, 100), FullVarietyShop());
    OneTitleFree("елки", 10, 100);
    assert FullVarietyShop().items.Keys == {"чай", "сок", "мед", "сыр", "хлеб"};
    assert DistinctTitles(FullVarietyShop()) == 5;
    DeliverRollsBack(w, "елки", 5);
  }

  const Collect3: seq<string> := ["Забрать", "3", "елки", "из", "магазин"]
  const Collect2: seq<string> := ["Забрать", "2", "елки", "из", "магазин"]

  /** Shop {елки: 5}: collecting 3 leaves 2, collecting the other 2 drops the title. */
  lemma CollectionsDrain()
    ensures Handle(World(EmptyWarehouse(), OneTitle("елки", 5, 25)), Collect3)
            == Step(Done, World(EmptyWarehouse(), OneTitle("елки", 2, 25)))
    ensures Handle(World(EmptyWarehouse(), OneTitle("елки", 2, 25)), Collect2)
            == Step(Done, World(EmptyWarehouse(), EmptyShop()))
  {
    RenderAccepted(Collection(3, "елки"));
    assert Render(Collection(3, "елки")) == Collect3;
    RenderAccepted(Collection(2, "елки"));
    assert Render(Collection(2, "елки")) == Collect2;
    KeywordsAreLowerCase();
    assert Collect3[4] != WarehouseWord && Collect2[4] != WarehouseWord;
    assert Remove(OneTitle("елки", 5, 25), "елки", 3).after.items == map["елки" := 2];
    assert Remove(OneTitle("елки", 2, 25), "елки", 2).after.items == map[];
  }

  /** Fewer than five words is reported as such, however malformed the rest. */
  lemma ShortCommandRejected()
    ensures CheckRequest(["купить", "много"]) == Rejected(TooFewWords)
  {
  }

  /** A delivery naming the warehouse but only six words long: the word-count error, not a keyword error. */
  lemma SixWordDeliveryRejected()
    ensures CheckRequest(Deliver5[..6]) == Rejected(TooFewWordsForDelivery)
  {
    Deliver5Accepted();
  }

  const CapitalisedDeliver5: seq<string> := ["Доставить", "5", "елки", "из", "Склад", "в", "магазин"]

  /**
   * The capitalised command passes validation, yet runs as a collection of
   * 5 елки from the empty shop: it is refused and nothing moves.
   */
  lemma CapitalisedWarehouseWordCollects()
    ensures CheckRequest(CapitalisedDeliver5) == Accepted(5)
    ensures Handle(World(OneTitle("елки", 10, 100), EmptyShop()), CapitalisedDeliver5)
            == Step(Refused(NotFound("елки")), World(OneTitle("елки", 10, 100), EmptyShop()))
  {
    Deliver5Accepted();
    assert Lower("Склад") == "склад";
    CaseInsensitive(CapitalisedDeliver5, Deliver5);
  }

  /** With the intended dispatch the same capitalised command delivers. */
  lemma CapitalisedWarehouseWordDeliversWhenIntended()
    ensures HandleIntended(World(OneTitle("елки", 10, 100), EmptyShop()), CapitalisedDeliver5)
            == Step(Done, World(OneTitle("елки", 5, 100), OneTitle("елки", 5, 25)))
  {
    CapitalisedWarehouseWordCollects();
    DeliveryCompletes();
    assert Lower("Доставить") == "доставить";
    IntendedDispatchFollowsVerb(World(OneTitle("елки", 10, 100), EmptyShop()), CapitalisedDeliver5);
  }
}
