/**
 * Sequences of operations: any run of positive adds and removes on a
 * container, and any run of commands on the two containers, keeps the
 * invariants the fresh containers start with. Also the warehouse stock the
 * program seeds before reading commands (main.py:123-132).
 */
module Sessions {
  import opened Totals
  import opened Inventory
  import opened Transfer

  /** One container operation with its title and quantity. */
  datatype Op = Put(title: string, qty: int) | Take(title: string, qty: int)

  predicate PositiveOps(ops: seq<Op>) {
    forall i :: 0 <= i < |ops| ==> ops[i].qty > 0
  }

  /** The container after one operation on a warehouse-like `Store`; a refusal leaves it as it was. */
  ghost function StoreStep(st: Store, op: Op): Store {
    match op
    case Put(t, q) => Add(st, t, q).after
    case Take(t, q) => Remove(st, t, q).after
  }

  /** The shop after one operation; its adds go through the title limit. */
  ghost function ShopStep(st: Store, op: Op): Store {
    match op
    case Put(t, q) => ShopAdd(st, t, q).after
    case Take(t, q) => Remove(st, t, q).after
  }

  /** Applies `ops` in order to a warehouse-like `Store`. */
  ghost function RunStore(st: Store, ops: seq<Op>): Store
    decreases |ops|
  {
    if ops == [] then st else RunStore(StoreStep(st, ops[0]), ops[1..])
  }

  /** Applies `ops` in order to a shop. */
  ghost function RunShop(st: Store, ops: seq<Op>): Store
    decreases |ops|
  {
    if ops == [] then st else RunShop(ShopStep(st, ops[0]), ops[1..])
  }

  /** The rest of a run of positive operations is positive too. */
  lemma PositiveOpsTail(ops: seq<Op>)
    requires ops != [] && PositiveOps(ops)
    ensures PositiveOps(ops[1..])
  {
    forall i | 0 <= i < |ops[1..]| ensures ops[1..][i].qty > 0 {
      assert ops[1..][i] == ops[i + 1];
    }
  }

  /** Positive adds and removes keep a container valid. */
  lemma {:induction false} RunStoreValid(st: Store, ops: seq<Op>)
    requires Valid(st) && PositiveOps(ops)
    ensures Valid(RunStore(st, ops))
    decreases |ops|
  {
    if ops != [] {
      match ops[0] {
        case Put(t, q) => AddPreservesValid(st, t, q);
        case Take(t, q) => RemovePreservesValid(st, t, q);
      }
      PositiveOpsTail(ops);
      RunStoreValid(StoreStep(st, ops[0]), ops[1..]);
    }
  }

  /** Positive adds and removes keep a shop valid, title limit included. */
  lemma {:induction false} RunShopValid(st: Store, ops: seq<Op>)
    requires ShopValid(st) && PositiveOps(ops)
    ensures ShopValid(RunShop(st, ops))
    decreases |ops|
  {
    if ops != [] {
      match ops[0] {
        case Put(t, q) => ShopAddPreservesValid(st, t, q);
        case Take(t, q) => ShopRemovePreservesValid(st, t, q);
      }
      PositiveOpsTail(ops);
      RunShopValid(ShopStep(st, ops[0]), ops[1..]);
    }
  }

  /**
   * From a fresh container, every run of positive operations leaves every
   * quantity positive and at least one unit free; the shop also holds at
   * most `MaxTitles` titles.
   */
  lemma FreshContainersStayValid(ops: seq<Op>)
    requires PositiveOps(ops)
    ensures Valid(RunStore(EmptyWarehouse(), ops)) && FreeSpace(RunStore(EmptyWarehouse(), ops)) >= 1
    ensures ShopValid(RunShop(EmptyShop(), ops)) && FreeSpace(RunShop(EmptyShop(), ops)) >= 1
    ensures DistinctTitles(RunShop(EmptyShop(), ops)) <= MaxTitles
  {
    EmptyContainersValid();
    RunStoreValid(EmptyWarehouse(), ops);
    RunShopValid(EmptyShop(), ops);
  }

  /** Feeds the commands to `Handle` one after another. */
  ghost function RunCommands(w: World, commands: seq<seq<string>>): World
    decreases |commands|
  {
    if commands == [] then w else RunCommands(Handle(w, commands[0]).world, commands[1..])
  }

  /** Any sequence of commands keeps both containers valid and never creates stock. */
  lemma {:induction false} RunCommandsValid(w: World, commands: seq<seq<string>>)
    requires WorldValid(w)
    ensures WorldValid(RunCommands(w, commands))
    ensures Stock(RunCommands(w, commands)) <= Stock(w)
    decreases |commands|
  {
    if commands != [] {
      HandlePreservesValid(w, commands[0]);
      RunCommandsValid(Handle(w, commands[0]).world, commands[1..]);
    }
  }

  // ---------------------------------------------------------------------------
  // Seed stock
  // ---------------------------------------------------------------------------

  /** The adds `main` performs on the fresh warehouse before reading commands. */
  function SeedOps(): seq<Op> {
    [Put("печеньки", 3), Put("собачки", 1), Put("коробки", 10),
     Put("елки", 30), Put("кактусы", 13), Put("вафельки", 24)]
  }

  /** Total quantity of a run of operations. */
  function SumQty(ops: seq<Op>): int
    decreases |ops|
  {
    if ops == [] then 0 else ops[0].qty + SumQty(ops[1..])
  }

  /** Every operation puts a positive quantity of a title that is neither held nor put twice. */
  ghost predicate FreshPuts(items: map<string, int>, ops: seq<Op>) {
    && (forall i :: 0 <= i < |ops| ==> ops[i].Put? && ops[i].qty > 0 && ops[i].title !in items)
    && (forall i, j :: 0 <= i < j < |ops| ==> ops[i].title != ops[j].title)
  }

  /** The mapping after setting each put title to its quantity, in order. */
  function PutAll(items: map<string, int>, ops: seq<Op>): map<string, int>
    decreases |ops|
  {
    if ops == [] then items else PutAll(items[ops[0].title := ops[0].qty], ops[1..])
  }

  /**
   * Putting fresh titles whose quantities sum to less than the free space:
   * every add succeeds, each title ends with its quantity, and the free space
   * shrinks by the sum.
   */
  lemma {:induction false} RunFreshPuts(st: Store, ops: seq<Op>)
    requires FreshPuts(st.items, ops)
    requires SumQty(ops) < FreeSpace(st)
    ensures RunStore(st, ops) == Store(PutAll(st.items, ops), st.capacity)
    ensures FreeSpace(RunStore(st, ops)) == FreeSpace(st) - SumQty(ops)
    decreases |ops|
  {
    if ops != [] {
      var op := ops[0];
      var next := Store(st.items[op.title := op.qty], st.capacity);
      SumQtyPositive(ops[1..]);
      assert StoreStep(st, op) == next;
      assert FreshPuts(next.items, ops[1..]) by {
        forall i | 0 <= i < |ops[1..]|
          ensures ops[1..][i].Put? && ops[1..][i].qty > 0 && ops[1..][i].title !in next.items
        {
          assert ops[1..][i] == ops[i + 1];
        }
        forall i, j | 0 <= i < j < |ops[1..]| ensures ops[1..][i].title != ops[1..][j].title {
          assert ops[1..][i] == ops[i + 1] && ops[1..][j] == ops[j + 1];
        }
      }
      RunFreshPuts(next, ops[1..]);
    }
  }

  /** A run of positive puts has a non-negative sum. */
  lemma {:induction false} SumQtyPositive(ops: seq<Op>)
    requires forall i :: 0 <= i < |ops| ==> ops[i].qty > 0
    ensures SumQty(ops) >= 0
    decreases |ops|
  {
    if ops != [] {
      SumQtyPositive(ops[1..]);
    }
  }

  /** What the seed adds leave in the warehouse. */
  function SeedStock(): map<string, int> {
    map["печеньки" := 3, "собачки" := 1, "коробки" := 10,
        "елки" := 30, "кактусы" := 13, "вафельки" := 24]
  }

  /** The seed titles are distinct, fresh and positive, and their quantities sum to 81. */
  lemma SeedOpsFresh()
    ensures FreshPuts(map[], SeedOps())
    ensures SumQty(SeedOps()) == 81
  {
    var ops := SeedOps();
    forall i, j | 0 <= i < j < |ops| ensures ops[i].title != ops[j].title {
      // One branch per pair of positions, so that each title comparison is
      // made between two concrete strings; the branches hold no statements.
      if i == 0 && j == 1 {
      } else if i == 0 && j == 2 {
      } else if i == 0 && j == 3 {
      } else if i == 0 && j == 4 {
      } else if i == 0 && j == 5 {
      } else if i == 1 && j == 2 {
      } else if i == 1 && j == 3 {
      } else if i == 1 && j == 4 {
      } else if i == 1 && j == 5 {
      } else if i == 2 && j == 3 {
      } else if i == 2 && j == 4 {
      } else if i == 2 && j == 5 {
      } else if i == 3 && j == 4 {
      } else if i == 3 && j == 5 {
      } else {
        assert i == 4 && j == 5;
      }
    }
  }

  /** Setting the seed titles one by one yields the seed stock. */
  lemma SeedPutAll()
    ensures PutAll(map[], SeedOps()) == SeedStock()
  {
    var ops := SeedOps();
    assert PutAll(map[], ops) == PutAll(map[ops[0].title := ops[0].qty], ops[1..]);
    assert PutAll(SeedStock(), ops[6..]) == SeedStock();
  }

  /** All six seed adds succeed: 81 units in six titles, 19 units free. */
  lemma SeedStockAdded()
    ensures RunStore(EmptyWarehouse(), SeedOps()) == Store(SeedStock(), WarehouseCapacity)
    ensures FreeSpace(RunStore(EmptyWarehouse(), SeedOps())) == 19
  {
    SeedOpsFresh();
    SeedPutAll();
    EmptyContainersValid();
    RunFreshPuts(EmptyWarehouse(), SeedOps());
  }
}
