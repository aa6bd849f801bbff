/**
 * The two inventory containers of main.py: `Store`, a bounded mapping from
 * item title to quantity, and `Shop`, a `Store` with a smaller capacity that
 * also limits how many distinct titles it holds. Containers are immutable
 * values; every operation returns a `Reply` carrying the outcome together
 * with the container as it is afterwards.
 */
module Inventory {
  import opened Totals

  /** Capacity of a fresh `Store` (the warehouse). */
  const WarehouseCapacity: int := 100
  /** Capacity of a fresh `Shop`. */
  const ShopCapacity: int := 25
  /** Most distinct titles a `Shop` accepts. */
  const MaxTitles: nat := 5

  /** A container: quantity per title, and the most units it may hold in total. */
  datatype Store = Store(items: map<string, int>, capacity: int)

  /** Why an operation was refused, with the data main.py puts in its message. */
  datatype Failure =
    | NoRoom(free: int)          // not enough free space; carries the free space
    | TooManyTitles(limit: nat)  // the shop already holds `limit` distinct titles
    | NotFound(title: string)    // the title is not held at all
    | NotEnough                  // the title is held, but fewer units than asked

  datatype Status = Ok | Err(failure: Failure)

  /** Outcome of one container operation and the container afterwards. */
  datatype Reply = Reply(status: Status, after: Store)

  function EmptyWarehouse(): Store {
    Store(map[], WarehouseCapacity)
  }

  function EmptyShop(): Store {
    Store(map[], ShopCapacity)
  }

  /** `get_free_space`: capacity minus the units held. */
  ghost function FreeSpace(st: Store): (r: int)
    ensures st.items == map[] ==> r == st.capacity
    ensures (forall t :: t in st.items ==> st.items[t] > 0) ==> r <= st.capacity - |st.items|
  {
    TotalAtLeastSize(st.items);
    st.capacity - Total(st.items)
  }

  /** `get_unique_items_count`: number of distinct titles held. */
  function DistinctTitles(st: Store): (r: nat)
    ensures r == 0 <==> st.items == map[]
    ensures (forall t :: t in st.items ==> st.items[t] > 0) ==> r <= Total(st.items)
  {
    TotalAtLeastSize(st.items);
    |st.items|
  }

  /** Units of `title` held, zero when the title is absent. */
  function Held(st: Store, title: string): int {
    if title in st.items then st.items[title] else 0
  }

  /** `after` agrees with `before` on every title other than `title`. */
  ghost predicate OnlyTitleChanged(before: map<string, int>, after: map<string, int>, title: string) {
    && (forall k :: k != title ==> (k in after <==> k in before))
    && (forall k :: k in before && k != title ==> after[k] == before[k])
  }

  /** Every stored quantity is positive and at least one unit of space is free. */
  ghost predicate Valid(st: Store) {
    && (forall t :: t in st.items ==> st.items[t] > 0)
    && Total(st.items) < st.capacity
  }

  /** A valid container that also respects the shop's title limit. */
  ghost predicate ShopValid(st: Store) {
    Valid(st) && DistinctTitles(st) <= MaxTitles
  }

  /**
   * `Store.add`: refused unless the free space strictly exceeds `qty` (so
   * filling the container exactly is refused); otherwise `qty` units are
   * added to `title`, creating it when absent.
   */
  ghost function Add(st: Store, title: string, qty: int): (r: Reply)
    ensures r.status.Ok? <==> qty < FreeSpace(st)
    ensures r.status.Err? ==> r == Reply(Err(NoRoom(FreeSpace(st))), st)
    ensures r.status.Ok? ==>
              && r.after.capacity == st.capacity
              && title in r.after.items
              && r.after.items[title] == Held(st, title) + qty
              && OnlyTitleChanged(st.items, r.after.items, title)
              && FreeSpace(r.after) == FreeSpace(st) - qty
  {
    if FreeSpace(st) <= qty then
      Reply(Err(NoRoom(FreeSpace(st))), st)
    else if title !in st.items then
      TotalUpdate(st.items, title, qty);
      assert st.items - {title} == st.items;
      Reply(Ok, st.(items := st.items[title := qty]))
    else
      TotalUpdate(st.items, title, st.items[title] + qty);
      TotalRemove(st.items, title);
      Reply(Ok, st.(items := st.items[title := st.items[title] + qty]))
  }

  /**
   * `Store.remove`: refused when `title` is absent or holds fewer than `qty`
   * units; otherwise `qty` units are taken and the title is dropped when
   * none remain.
   */
  function Remove(st: Store, title: string, qty: int): (r: Reply)
    ensures title !in st.items ==> r == Reply(Err(NotFound(title)), st)
    ensures title in st.items && qty > st.items[title] ==> r == Reply(Err(NotEnough), st)
    ensures r.status.Ok? <==> title in st.items && qty <= st.items[title]
    ensures r.status.Ok? ==>
              && r.after.capacity == st.capacity
              && (title in r.after.items <==> qty != st.items[title])
              && (title in r.after.items ==> r.after.items[title] == st.items[title] - qty)
              && OnlyTitleChanged(st.items, r.after.items, title)
              && FreeSpace(r.after) == FreeSpace(st) + qty
  {
    if title !in st.items then
      Reply(Err(NotFound(title)), st)
    else if qty > st.items[title] then
      Reply(Err(NotEnough), st)
    else
      var left := st.items[title] - qty;
      TotalRemove(st.items, title);
      if left == 0 then
        Reply(Ok, st.(items := st.items - {title}))
      else
        TotalUpdate(st.items, title, left);
        Reply(Ok, st.(items := st.items[title := left]))
  }

  /**
   * `Shop.add`: a title the shop does not hold yet is refused outright when
   * `MaxTitles` titles are already held, before any capacity check; every
   * other request is decided by `Store.add`.
   */
  ghost function ShopAdd(st: Store, title: string, qty: int): (r: Reply)
    ensures title !in st.items && DistinctTitles(st) == MaxTitles ==>
              r == Reply(Err(TooManyTitles(MaxTitles)), st)
    ensures title in st.items || DistinctTitles(st) != MaxTitles ==> r == Add(st, title, qty)
  {
    if title !in st.items && DistinctTitles(st) == MaxTitles then
      Reply(Err(TooManyTitles(MaxTitles)), st)
    else
      Add(st, title, qty)
  }

  /** `get_free_space` as main.py computes it, by summing the quantities (main.py:58-60). */
  method GetFreeSpace(st: Store) returns (free: int)
    ensures free == FreeSpace(st)
  {
    var held := SumValues(st.items);
    free := st.capacity - held;
  }

  // ---------------------------------------------------------------------------
  // Invariants
  // ---------------------------------------------------------------------------

  /** A fresh warehouse and a fresh shop satisfy their invariants. */
  lemma EmptyContainersValid()
    ensures Valid(EmptyWarehouse()) && FreeSpace(EmptyWarehouse()) == WarehouseCapacity
    ensures ShopValid(EmptyShop()) && FreeSpace(EmptyShop()) == ShopCapacity
  {
  }

  /** Adding a positive quantity keeps quantities positive and the total strictly below capacity. */
  lemma AddPreservesValid(st: Store, title: string, qty: int)
    requires Valid(st) && qty > 0
    ensures Valid(Add(st, title, qty).after)
  {
  }

  /** Removing a positive quantity keeps quantities positive and the total strictly below capacity. */
  lemma RemovePreservesValid(st: Store, title: string, qty: int)
    requires Valid(st) && qty > 0
    ensures Valid(Remove(st, title, qty).after)
  {
  }

  /** The shop never holds more than `MaxTitles` titles, nor reaches its capacity. */
  lemma ShopAddPreservesValid(st: Store, title: string, qty: int)
    requires ShopValid(st) && qty > 0
    ensures ShopValid(ShopAdd(st, title, qty).after)
  {
    var r := ShopAdd(st, title, qty);
    AddPreservesValid(st, title, qty);
    if r.status.Ok? && title !in st.items {
      assert r.after.items.Keys == st.items.Keys + {title};
    } else if r.status.Ok? {
      assert r.after.items.Keys == st.items.Keys;
    }
  }

  /** Removing from the shop keeps the shop invariant: removal never adds a title. */
  lemma ShopRemovePreservesValid(st: Store, title: string, qty: int)
    requires ShopValid(st) && qty > 0
    ensures ShopValid(Remove(st, title, qty).after)
  {
    var r := Remove(st, title, qty);
    RemovePreservesValid(st, title, qty);
    if r.status.Ok? {
      assert r.after.items.Keys <= st.items.Keys;
    }
  }

  // ---------------------------------------------------------------------------
  // Inverses
  // ---------------------------------------------------------------------------

  /**
   * Putting back what a successful `remove` took succeeds exactly when at
   * least one unit was free beforehand, and then restores the container.
   */
  lemma RemoveThenAdd(st: Store, title: string, qty: int)
    requires Remove(st, title, qty).status.Ok?
    ensures Add(Remove(st, title, qty).after, title, qty).status.Ok? <==> FreeSpace(st) >= 1
    ensures FreeSpace(st) >= 1 ==> Add(Remove(st, title, qty).after, title, qty) == Reply(Ok, st)
  {
    var mid := Remove(st, title, qty).after;
    var back := Add(mid, title, qty);
    if back.status.Ok? {
      assert back.after.items == st.items;
    }
  }

  /** Taking back what a successful `add` put in restores a container of positive quantities. */
  lemma AddThenRemove(st: Store, title: string, qty: int)
    requires forall t :: t in st.items ==> st.items[t] > 0
    requires Add(st, title, qty).status.Ok?
    ensures Remove(Add(st, title, qty).after, title, qty) == Reply(Ok, st)
  {
    var mid := Add(st, title, qty).after;
    var back := Remove(mid, title, qty);
    assert back.after.items == st.items;
  }
}
