/**
 * The body of the command loop in `main` (main.py:149-174) as a pure
 * function: validate the tokens, build the request, and run it against the
 * warehouse and the shop. A delivery takes the stock from the warehouse and
 * places it in the shop; when the shop refuses, the stock is put back in the
 * warehouse. Any other validated request is a collection from the shop.
 */
module Transfer {
  import opened Text
  import opened Totals
  import opened Inventory
  import opened Commands

  /** `Request` (main.py:82-87): amount, product, the source word and, for 7+ words, the destination word. */
  datatype Request = Request(amount: int, product: string, source: string, destination: Option<string>)

  /** Building the request from validated tokens (main.py:154-158). The source word keeps its original case. */
  function MakeRequest(t: seq<string>, amount: int): (r: Request)
    requires |t| >= 5
    ensures r.amount == amount && r.product == t[2] && r.source == t[4]
    ensures r.destination.Some? <==> |t| >= 7
    ensures r.destination.Some? ==> r.destination.value == t[6]
  {
    Request(amount, t[2], t[4], if |t| < 7 then None else Some(t[6]))
  }

  /**
   * What a validated command turns into: a positive amount; a source word
   * naming the warehouse exactly for deliveries and the shop exactly for
   * collections; a delivery always has the shop as destination, while a
   * collection has a destination exactly when it has seven or more words.
   */
  lemma ValidatedRequest(t: seq<string>, n: int)
    requires CheckRequest(t) == Accepted(n)
    ensures var r := MakeRequest(t, n);
      && r.amount == n && r.amount > 0
      && r.product == t[2] && r.source == t[4]
      && (Lower(r.source) == WarehouseWord <==> Lower(t[0]) == DeliverVerb)
      && (Lower(r.source) == ShopWord <==> Lower(t[0]) == CollectVerb)
      && (Lower(t[0]) == DeliverVerb ==> r.destination.Some? && Lower(r.destination.value) == ShopWord)
      && (Lower(t[0]) == CollectVerb ==> (r.destination.Some? <==> |t| >= 7))
  {
    CheckRequestAcceptsExactly(t, n);
    assert DeliverVerb != CollectVerb;
    assert WarehouseWord != ShopWord;
  }

  /** The result of one command. */
  datatype Outcome =
    | Invalid(error: RequestError)  // rejected by the validator
    | Refused(failure: Failure)     // a container refused; the reported failure
    | Done

  /** Both containers. */
  datatype World = World(warehouse: Store, shop: Store)

  datatype Step = Step(outcome: Outcome, world: World)

  /** Units held across both containers. */
  ghost function Stock(w: World): int {
    Total(w.warehouse.items) + Total(w.shop.items)
  }

  /** Both containers satisfy their invariants. */
  ghost predicate WorldValid(w: World) {
    Valid(w.warehouse) && ShopValid(w.shop)
  }

  /**
   * Delivery: remove from the warehouse; if that succeeds, add to the shop;
   * if the shop refuses, add the stock back to the warehouse, ignoring the
   * outcome of that compensating add as main.py does (main.py:170).
   */
  ghost function Deliver(w: World, product: string, amount: int): (r: Step)
    ensures !r.outcome.Invalid?
    ensures r.outcome.Done? <==>
              Remove(w.warehouse, product, amount).status.Ok? && ShopAdd(w.shop, product, amount).status.Ok?
    ensures !r.outcome.Done? ==> r.world.shop == w.shop
    ensures !r.outcome.Done? && FreeSpace(w.warehouse) >= 1 ==> r.world == w
  {
    var taken := Remove(w.warehouse, product, amount);
    if taken.status.Err? then
      Step(Refused(taken.status.failure), w)
    else
      var placed := ShopAdd(w.shop, product, amount);
      if placed.status.Ok? then
        Step(Done, World(taken.after, placed.after))
      else
        RemoveThenAdd(w.warehouse, product, amount);
        var restored := Add(taken.after, product, amount);
        Step(Refused(placed.status.failure), World(restored.after, placed.after))
  }

  /** Collection: remove from the shop. */
  function Collect(w: World, product: string, amount: int): (r: Step)
    ensures r.world.warehouse == w.warehouse
    ensures r.outcome.Done? <==> product in w.shop.items && amount <= w.shop.items[product]
    ensures r.outcome.Refused? <==> !r.outcome.Done?
    ensures r.outcome.Refused? ==>
              r.outcome.failure == (if product !in w.shop.items then NotFound(product) else NotEnough)
    ensures !r.outcome.Done? ==> r.world == w
    ensures r.outcome.Done? ==>
              && Held(r.world.shop, product) == Held(w.shop, product) - amount
              && OnlyTitleChanged(w.shop.items, r.world.shop.items, product)
  {
    var taken := Remove(w.shop, product, amount);
    Step(if taken.status.Ok? then Done else Refused(taken.status.failure), World(w.warehouse, taken.after))
  }

  /** Dispatch on the source word exactly as typed: only the lower-case warehouse word delivers. */
  ghost function Execute(w: World, req: Request): (r: Step)
    ensures !r.outcome.Invalid?
    ensures req.source != WarehouseWord ==> r.world.warehouse == w.warehouse
    ensures Valid(w.warehouse) && !r.outcome.Done? ==> r.world == w
  {
    if req.source == WarehouseWord then Deliver(w, req.product, req.amount)
    else Collect(w, req.product, req.amount)
  }

  /** One command: validation, then execution of the validated request. */
  ghost function Handle(w: World, t: seq<string>): (r: Step)
    ensures r.outcome.Invalid? <==> CheckRequest(t).Rejected?
    ensures Valid(w.warehouse) && !r.outcome.Done? ==> r.world == w
  {
    match CheckRequest(t)
    case Rejected(e) => Step(Invalid(e), w)
    case Accepted(n) => Execute(w, MakeRequest(t, n))
  }

  // ---------------------------------------------------------------------------
  // Delivery
  // ---------------------------------------------------------------------------

  /** A refused warehouse removal ends the delivery with nothing changed. */
  lemma DeliverFirstLegRefused(w: World, product: string, amount: int)
    requires Remove(w.warehouse, product, amount).status.Err?
    ensures Deliver(w, product, amount) == Step(Refused(Remove(w.warehouse, product, amount).status.failure), w)
  {
  }

  /**
   * When the shop refuses, the compensating add succeeds and both containers
   * end exactly as they were, provided the warehouse had a unit of free
   * space, which its invariant guarantees.
   */
  lemma DeliverRollsBack(w: World, product: string, amount: int)
    requires FreeSpace(w.warehouse) >= 1
    requires Remove(w.warehouse, product, amount).status.Ok?
    requires ShopAdd(w.shop, product, amount).status.Err?
    ensures Add(Remove(w.warehouse, product, amount).after, product, amount).status.Ok?
    ensures Deliver(w, product, amount) == Step(Refused(ShopAdd(w.shop, product, amount).status.failure), w)
  {
    RemoveThenAdd(w.warehouse, product, amount);
  }

  /** Without that unit of free space, the compensating add would be refused. */
  lemma RollbackNeedsFreeUnit(w: World, product: string, amount: int)
    requires FreeSpace(w.warehouse) <= 0
    requires Remove(w.warehouse, product, amount).status.Ok?
    ensures !Add(Remove(w.warehouse, product, amount).after, product, amount).status.Ok?
  {
    RemoveThenAdd(w.warehouse, product, amount);
  }

  /**
   * A completed delivery moves `amount` units of `product` from the
   * warehouse to the shop and changes nothing else.
   */
  lemma DeliverMoves(w: World, product: string, amount: int)
    requires Deliver(w, product, amount).outcome.Done?
    ensures var after := Deliver(w, product, amount).world;
      && Held(after.warehouse, product) == Held(w.warehouse, product) - amount
      && Held(after.shop, product) == Held(w.shop, product) + amount
      && OnlyTitleChanged(w.warehouse.items, after.warehouse.items, product)
      && OnlyTitleChanged(w.shop.items, after.shop.items, product)
      && Stock(after) == Stock(w)
  {
  }

  /** With a valid warehouse a delivery is all or nothing, and never changes the stock held overall. */
  lemma DeliverAllOrNothing(w: World, product: string, amount: int)
    requires Valid(w.warehouse)
    ensures var r := Deliver(w, product, amount);
      && (r.outcome.Done? || r.world == w)
      && Stock(r.world) == Stock(w)
  {
    var taken := Remove(w.warehouse, product, amount);
    if taken.status.Ok? && ShopAdd(w.shop, product, amount).status.Err? {
      DeliverRollsBack(w, product, amount);
    } else if taken.status.Ok? {
      DeliverMoves(w, product, amount);
    }
  }

  // ---------------------------------------------------------------------------
  // Collection
  // ---------------------------------------------------------------------------

  /** A collection never touches the warehouse; it removes `amount` units from the shop or nothing. */
  lemma CollectTakes(w: World, product: string, amount: int)
    ensures var r := Collect(w, product, amount);
      && r.world.warehouse == w.warehouse
      && (r.outcome.Done? <==> product in w.shop.items && amount <= w.shop.items[product])
      && (r.outcome.Done? ==> Stock(r.world) == Stock(w) - amount)
      && (r.outcome.Done? ==> Held(r.world.shop, product) == Held(w.shop, product) - amount)
      && (r.outcome.Done? ==> OnlyTitleChanged(w.shop.items, r.world.shop.items, product))
      && (r.outcome.Refused? ==>
            r.outcome.failure == (if product !in w.shop.items then NotFound(product) else NotEnough))
      && (!r.outcome.Done? ==> r.world == w)
  {
  }

  // ---------------------------------------------------------------------------
  // Whole commands
  // ---------------------------------------------------------------------------

  /** A rejected command changes neither container. */
  lemma RejectedChangesNothing(w: World, t: seq<string>)
    requires CheckRequest(t).Rejected?
    ensures Handle(w, t) == Step(Invalid(CheckRequest(t).error), w)
  {
  }

  /**
   * Dispatch compares the source word as typed, not lower-cased: a validated
   * delivery whose warehouse word is capitalised (`Склад`) is executed as a
   * collection from the shop and leaves the warehouse alone.
   */
  lemma SourceWordCaseQuirk(w: World, t: seq<string>)
    requires CheckRequest(t).Accepted?
    requires t[4] != WarehouseWord
    ensures Handle(w, t) == Collect(w, t[2], CheckRequest(t).amount)
    ensures Handle(w, t).world.warehouse == w.warehouse
  {
  }

  /** A validated `забрать` command is always a collection from the shop. */
  lemma CollectVerbCollects(w: World, t: seq<string>)
    requires CheckRequest(t).Accepted?
    requires Lower(t[0]) == CollectVerb
    ensures Handle(w, t) == Collect(w, t[2], CheckRequest(t).amount)
  {
    KeywordsAreLowerCase();
    assert WarehouseWord != ShopWord;
  }

  /** A validated command whose source word is the lower-case warehouse word is a delivery. */
  lemma WarehouseWordDelivers(w: World, t: seq<string>)
    requires CheckRequest(t).Accepted?
    requires t[4] == WarehouseWord
    ensures Lower(t[0]) == DeliverVerb
    ensures Handle(w, t) == Deliver(w, t[2], CheckRequest(t).amount)
  {
    KeywordsAreLowerCase();
    assert DeliverVerb != CollectVerb;
    assert WarehouseWord != ShopWord;
  }

  /** Every command keeps both containers valid and never increases the stock held overall. */
  lemma HandlePreservesValid(w: World, t: seq<string>)
    requires WorldValid(w)
    ensures WorldValid(Handle(w, t).world)
    ensures Stock(Handle(w, t).world) <= Stock(w)
  {
    match CheckRequest(t)
    case Rejected(_) =>
    case Accepted(n) =>
      var req := MakeRequest(t, n);
      if req.source == WarehouseWord {
        var taken := Remove(w.warehouse, req.product, n);
        RemovePreservesValid(w.warehouse, req.product, n);
        ShopAddPreservesValid(w.shop, req.product, n);
        DeliverAllOrNothing(w, req.product, n);
      } else {
        ShopRemovePreservesValid(w.shop, req.product, n);
        CollectTakes(w, req.product, n);
      }
  }

  // ---------------------------------------------------------------------------
  // Dispatch as evidently intended
  // ---------------------------------------------------------------------------

  /** Dispatch on the lower-cased source word, the form the validator checked. */
  ghost function ExecuteIntended(w: World, req: Request): Step {
    if Lower(req.source) == WarehouseWord then Deliver(w, req.product, req.amount)
    else Collect(w, req.product, req.amount)
  }

  /** `Handle` with the intended dispatch. */
  ghost function HandleIntended(w: World, t: seq<string>): Step {
    match CheckRequest(t)
    case Rejected(e) => Step(Invalid(e), w)
    case Accepted(n) => ExecuteIntended(w, MakeRequest(t, n))
  }

  /** With the intended dispatch, every validated command does what its verb says. */
  lemma IntendedDispatchFollowsVerb(w: World, t: seq<string>)
    requires CheckRequest(t).Accepted?
    ensures Lower(t[0]) == DeliverVerb ==> HandleIntended(w, t) == Deliver(w, t[2], CheckRequest(t).amount)
    ensures Lower(t[0]) == CollectVerb ==> HandleIntended(w, t) == Collect(w, t[2], CheckRequest(t).amount)
  {
    assert DeliverVerb != CollectVerb;
    assert WarehouseWord != ShopWord;
  }

  /** The two dispatches agree on every command whose source word is typed in lower case. */
  lemma IntendedAgreesOnLowerCase(w: World, t: seq<string>)
    requires |t| >= 5 && Lower(t[4]) == t[4]
    ensures HandleIntended(w, t) == Handle(w, t)
  {
  }

  /** The intended dispatch keeps both containers valid too. */
  lemma HandleIntendedPreservesValid(w: World, t: seq<string>)
    requires WorldValid(w)
    ensures WorldValid(HandleIntended(w, t).world)
    ensures Stock(HandleIntended(w, t).world) <= Stock(w)
  {
    match CheckRequest(t)
    case Rejected(_) =>
    case Accepted(n) =>
      var req := MakeRequest(t, n);
      if Lower(req.source) == WarehouseWord {
        RemovePreservesValid(w.warehouse, req.product, n);
        ShopAddPreservesValid(w.shop, req.product, n);
        DeliverAllOrNothing(w, req.product, n);
      } else {
        ShopRemovePreservesValid(w.shop, req.product, n);
        CollectTakes(w, req.product, n);
      }
  }
}
