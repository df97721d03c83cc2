/**
 * The item catalogue and the inventories that the shop and the player
 * controller call into. Neither Inventory.cs nor ItemDatabase.cs is part of
 * this model; what is written here is only what their call sites rely on, and
 * every behaviour beyond that is an assumption (see README).
 */
module Inventories {
  import opened Wrappers
  import Plants

  /** int.MaxValue: the shop's "infinite" stock sentinel. */
  const Infinite: int := 0x7FFF_FFFF

  /** Catalogue entry; `plant` is the plant prefab's configuration. */
  datatype Item = Item(id: int, name: string, price: int, sellPrice: int, maxCount: int, plant: Plants.Config)

  /** GetItemByName: the first catalogue entry with this name. */
  function ItemByName(db: seq<Item>, name: string): (r: Option<Item>)
    ensures r.Some? ==> r.value in db && r.value.name == name
    ensures r.None? ==> forall i :: 0 <= i < |db| ==> db[i].name != name
  {
    if db == [] then None
    else if db[0].name == name then Some(db[0])
    else ItemByName(db[1..], name)
  }

  /** GetItem: the first catalogue entry with this id. */
  function ItemById(db: seq<Item>, id: int): (r: Option<Item>)
    ensures r.Some? ==> r.value in db && r.value.id == id
    ensures r.None? ==> forall i :: 0 <= i < |db| ==> db[i].id != id
  {
    if db == [] then None
    else if db[0].id == id then Some(db[0])
    else ItemById(db[1..], id)
  }

  /** The contents of an inventory: a count per held item id, and money. */
  datatype Stock = Stock(counts: map<int, int>, money: int)

  /** Only positive counts are stored. */
  predicate WellFormed(s: Stock) {
    forall id :: id in s.counts ==> s.counts[id] > 0
  }

  /** GetItemCount: zero for an id that is not held. */
  function Count(s: Stock, id: int): int {
    if id in s.counts then s.counts[id] else 0
  }

  predicate Holds(s: Stock, id: int) {
    Count(s, id) > 0
  }

  predicate Affords(s: Stock, amount: int) {
    s.money >= amount
  }

  function WithCount(counts: map<int, int>, id: int, n: int): map<int, int> {
    if n > 0 then counts[id := n] else counts - {id}
  }

  /** AddItem: the count of `id` grows by n; nothing else changes. */
  function Added(s: Stock, id: int, n: int): (r: Stock)
    requires WellFormed(s)
    ensures WellFormed(r) && r.money == s.money
    ensures Count(s, id) + n >= 0 ==> Count(r, id) == Count(s, id) + n
    ensures forall k :: k != id ==> Count(r, k) == Count(s, k)
  {
    s.(counts := WithCount(s.counts, id, Count(s, id) + n))
  }

  /**
   * What a call RemoveItem(id, n) is relied on to do: money and every other id
   * are untouched, and removing at most what is held from an ordinary (not
   * sentinel) stack lowers it by exactly n. Other cases are left open.
   */
  ghost predicate RemovedFrom(before: Stock, after: Stock, id: int, n: int) {
    && after.money == before.money
    && (forall k :: k != id ==> Count(after, k) == Count(before, k))
    && (0 <= n <= Count(before, id) && Count(before, id) != Infinite ==>
          Count(after, id) == Count(before, id) - n)
  }

  /** Two well-formed stocks that agree on every count have the same map. */
  lemma SameCountsSameMap(a: Stock, b: Stock)
    requires WellFormed(a) && WellFormed(b)
    requires forall k :: Count(a, k) == Count(b, k)
    ensures a.counts == b.counts
  {
    forall k | k in a.counts
      ensures k in b.counts && b.counts[k] == a.counts[k]
    {
      assert Count(a, k) == Count(b, k);
    }
    forall k | k in b.counts
      ensures k in a.counts
    {
      assert Count(a, k) == Count(b, k);
    }
  }

  /** An inventory component: item counts, money and the equipped item. */
  class Inventory {
    var counts: map<int, int>
    var money: int
    var equipped: Option<Item>

    function View(): Stock
      reads this
    {
      Stock(counts, money)
    }

    ghost predicate Valid()
      reads this
    {
      WellFormed(View())
    }

    constructor ()
      ensures Valid() && View() == Stock(map[], 0) && equipped == None
    {
      counts := map[];
      money := 0;
      equipped := None;
    }

    /** Zero for an id that is not held; never negative in a valid inventory. */
    function GetItemCount(id: int): (r: int)
      reads this
      ensures id !in counts ==> r == 0
      ensures id in counts ==> r == counts[id]
      ensures Valid() ==> r >= 0
    {
      Count(View(), id)
    }

    /** Whether at least one of the item is held. */
    predicate HasItem(id: int)
      reads this
      ensures HasItem(id) <==> id in counts && counts[id] > 0
      ensures Valid() ==> (HasItem(id) <==> id in counts)
    {
      Holds(View(), id)
    }

    /** Whether the money covers the amount. */
    predicate HasMoney(amount: int)
      reads this
      ensures HasMoney(amount) <==> money >= amount
    {
      Affords(View(), amount)
    }

    /** The equipped item; None stands for null. */
    function GetEquippedItem(): (r: Option<Item>)
      reads this
      ensures r == equipped
    {
      equipped
    }

    method AddItem(id: int, n: int)
      requires Valid()
      modifies this`counts
      ensures Valid() && View() == Added(old(View()), id, n)
    {
      counts := WithCount(counts, id, GetItemCount(id) + n);
    }

    method RemoveItem(id: int, n: int)
      requires Valid()
      modifies this`counts
      ensures Valid() && RemovedFrom(old(View()), View(), id, n)
    {
      var held := GetItemCount(id);
      if 0 <= n <= held && held != Infinite {
        counts := WithCount(counts, id, held - n);
      }
    }

    method AddMoney(amount: int)
      modifies this`money
      ensures money == old(money) + amount
    {
      money := money + amount;
    }

    method RemoveMoney(amount: int)
      modifies this`money
      ensures money == old(money) - amount
    {
      money := money - amount;
    }

    /** Cycles the equipped item; the item the cycle reaches is passed in. */
    method EquipNextItem(next: Option<Item>)
      modifies this`equipped
      ensures equipped == next
    {
      equipped := next;
    }
  }
}
