/**
 * The travelling merchant (Shop.cs): a session state machine that lets one of
 * the two players buy or sell at a time, and the transactions. Buying moves
 * items from the shop's stock to the player and takes the price from the
 * player; selling removes items from the player and pays the sell price. The
 * shop's money never changes, and sold items do not go back to the shop.
 *
 * The value-level definitions (BuyAllowed, PaidFor, SoldFrom, the Session
 * functions) state what a transaction and a session change do; the class Shop
 * keeps the source's fields, and its methods are proved against them.
 */
module Shops {
  import opened Wrappers
  import opened Inventories
  import opened Players

  /** The source's ShopState: NONE, BUYING, SELLING. */
  datatype ShopState = Idle | Buying | Selling

  // ---------------------------------------------------------------------------
  // Transactions

  /** CanBuy: the stack limit is respected and the player can pay. */
  predicate BuyAllowed(p: Stock, item: Item, count: int) {
    Count(p, item.id) + count <= item.maxCount && Affords(p, item.price * count)
  }

  /** The player's side of a purchase: `count` more of the item, `price * count` less money. */
  function PaidFor(p: Stock, item: Item, count: int): (r: Stock)
    requires WellFormed(p)
    ensures WellFormed(r)
    ensures r.money == p.money - item.price * count
    ensures Count(p, item.id) + count >= 0 ==> Count(r, item.id) == Count(p, item.id) + count
    ensures forall k :: k != item.id ==> Count(r, k) == Count(p, k)
  {
    Added(p, item.id, count).(money := p.money - item.price * count)
  }

  /**
   * SellItem on the player's inventory: if the item is held, RemoveItem(id, count)
   * and `sellPrice * count` more money; otherwise nothing changes.
   */
  ghost predicate SoldFrom(before: Stock, after: Stock, item: Item, count: int) {
    if Holds(before, item.id) then
      && after.money == before.money + item.sellPrice * count
      && RemovedFrom(before, after.(money := before.money), item.id, count)
    else
      after == before
  }

  /** The Purchase button's guard keeps the stack limit and, from non-negative money, keeps money non-negative. */
  lemma PurchaseKeepsLimits(p: Stock, item: Item)
    requires WellFormed(p) && BuyAllowed(p, item, 1)
    ensures Count(PaidFor(p, item, 1), item.id) <= item.maxCount
    ensures PaidFor(p, item, 1).money >= 0
  {
  }

  /** BuyItem re-checks money only: a purchase can succeed where CanBuy says no. */
  lemma StackLimitNotRechecked()
    ensures var item := Item(7, "Radish Seeds", 10, 5, 1, Plants.Config(8, 1, 1, false));
            var p := Stock(map[7 := 1], 100);
            !BuyAllowed(p, item, 1) && Affords(p, item.price * 1) && Count(PaidFor(p, item, 1), 7) == 2
  {
  }

  /** Buying one item and selling it back restores the count and costs price - sellPrice. */
  lemma BuyThenSellRestores(p: Stock, item: Item, after: Stock)
    requires WellFormed(p) && WellFormed(after)
    requires Count(p, item.id) + 1 != Infinite
    requires SoldFrom(PaidFor(p, item, 1), after, item, 1)
    ensures after.money == p.money - item.price + item.sellPrice
    ensures after.counts == p.counts
  {
    var bought := PaidFor(p, item, 1);
    assert Holds(bought, item.id);
    forall k
      ensures Count(after, k) == Count(p, k)
    {
      if k == item.id {
        assert Count(after.(money := bought.money), k) == Count(bought, k) - 1;
      } else {
        assert Count(after.(money := bought.money), k) == Count(bought, k);
      }
    }
    SameCountsSameMap(after, p);
  }

  // ---------------------------------------------------------------------------
  // Sessions

  /** The shop state, the active player and the two players' modes. */
  datatype Session = Session(state: ShopState, active: int, modes: seq<PlayerMode>)

  predicate WellIndexed(s: Session) {
    |s.modes| == 2 && 0 <= s.active < 2
  }

  /** Mutual exclusion: only the active player of an open session is ever Shopping. */
  predicate Exclusive(s: Session) {
    && WellIndexed(s)
    && forall i :: 0 <= i < 2 && s.modes[i] == Shopping ==> i == s.active && s.state != Idle
  }

  /** StartBuying(p): p becomes the active, shopping player; the other player is put back to Normal. */
  function BuyingStarted(s: Session, p: int): (r: Session)
    requires WellIndexed(s) && 0 <= p < 2
    ensures Exclusive(r) && r.state == Buying && r.active == p
    ensures r.modes[p] == Shopping && r.modes[1 - p] == Normal
  {
    Session(Buying, p, s.modes[p := Shopping][1 - p := Normal])
  }

  /** StartSelling(p): p becomes the active player; nobody's mode changes. */
  function SellingStarted(s: Session, p: int): (r: Session)
    requires WellIndexed(s) && 0 <= p < 2
    ensures r.state == Selling && r.active == p && r.modes == s.modes
    ensures Exclusive(s) && p == s.active ==> Exclusive(r)
  {
    s.(state := Selling, active := p)
  }

  /** StopShopping(p): only the active player can close the session. */
  function Stopped(s: Session, p: int): (r: Session)
    requires WellIndexed(s)
    ensures WellIndexed(r)
    ensures p != s.active ==> r == s
    ensures p == s.active ==> r.state == Idle && r.active == s.active && r.modes[s.active] == Normal
    ensures p == s.active ==> r.modes[1 - s.active] == s.modes[1 - s.active]
    ensures Exclusive(s) ==> Exclusive(r) && forall i :: 0 <= i < 2 && p == s.active ==> r.modes[i] == Normal
  {
    if p == s.active then s.(state := Idle, modes := s.modes[s.active := Normal]) else s
  }

  /** Starting to sell for another player while someone shops breaks mutual exclusion. */
  lemma SellingForInactivePlayerBreaksExclusion()
    ensures var s := Session(Buying, 0, [Shopping, Normal]);
            Exclusive(s) && !Exclusive(SellingStarted(s, 1))
  {
    var s := Session(Buying, 0, [Shopping, Normal]);
    assert SellingStarted(s, 1).modes[0] == Shopping;
  }

  /**
   * The ways a session changes: StartBuying by any player (the debug key), the
   * GUI's Sell and Buy buttons (for the active player, shown only during a
   * session), and StopShopping by any player.
   */
  datatype ShopEvent = StartBuyingFor(player: int) | SellButton | BuyButton | StopShoppingFor(player: int)

  predicate EventOk(e: ShopEvent) {
    e.StartBuyingFor? ==> 0 <= e.player < 2
  }

  function Step(s: Session, e: ShopEvent): (r: Session)
    requires WellIndexed(s) && EventOk(e)
    ensures WellIndexed(r)
  {
    match e
    case StartBuyingFor(p) => BuyingStarted(s, p)
    case SellButton => if s.state != Idle then SellingStarted(s, s.active) else s
    case BuyButton => if s.state != Idle then BuyingStarted(s, s.active) else s
    case StopShoppingFor(p) => Stopped(s, p)
  }

  function Run(s: Session, events: seq<ShopEvent>): (r: Session)
    requires WellIndexed(s) && forall i :: 0 <= i < |events| ==> EventOk(events[i])
    ensures WellIndexed(r)
    decreases |events|
  {
    if events == [] then s else Run(Step(s, events[0]), events[1..])
  }

  /** Every sequence of session events keeps mutual exclusion: at most one player ever shops. */
  lemma {:induction false} RunKeepsExclusive(s: Session, events: seq<ShopEvent>)
    requires Exclusive(s) && forall i :: 0 <= i < |events| ==> EventOk(events[i])
    ensures Exclusive(Run(s, events))
    ensures !(Run(s, events).modes[0] == Shopping && Run(s, events).modes[1] == Shopping)
    decreases |events|
  {
    if events != [] {
      var next := Step(s, events[0]);
      assert Exclusive(next);
      RunKeepsExclusive(next, events[1..]);
    }
  }

  /** Player 0 starts buying; a stop from player 1 does nothing; a stop from player 0 closes the shop. */
  lemma StopOnlyByActivePlayer(s: Session)
    requires WellIndexed(s)
    ensures var buying := BuyingStarted(s, 0);
            Stopped(buying, 1) == buying && Stopped(buying, 0).state == Idle
            && Stopped(buying, 0).modes == [Normal, Normal]
  {
  }

  // ---------------------------------------------------------------------------
  // The shop object

  /** A non-empty set has a member. */
  lemma HasMember(ids: set<int>)
    requires ids != {}
    ensures exists x :: x in ids
  {
    if forall x :: x !in ids {
      assert false;
    }
  }

  /** Some element of a non-empty set of ids: the next key a dictionary walk visits. */
  method AnyId(ids: set<int>) returns (id: int)
    requires ids != {}
    ensures id in ids
  {
    HasMember(ids);
    id :| id in ids;
  }

  /** A controller's device binding is what it was before the call. */
  twostate predicate BindingKept(p: PlayerController)
    reads p
  {
    && p.isPlayerBound == old(p.isPlayerBound)
    && p.playerIndex == old(p.playerIndex)
    && p.playerDevice == old(p.playerDevice)
  }

  class Shop {
    /** The two players: players[i] is the object named "Player" + i. */
    const players: seq<PlayerController>
    const shopInventory: Inventory
    /** The item database, looked up by name and by id. */
    const itemDB: seq<Item>
    var playerInventory: Inventory?
    var itemNames: array?<string>
    var itemDescriptions: array?<string>
    /** The selected item's name; null is None. */
    var selectedItem: Option<string>
    var state: ShopState
    var activePlayerIndex: int

    ghost predicate Valid()
      reads this, players
    {
      && |players| == 2
      && players[0] != players[1]
      && players[0].inventory != players[1].inventory
      && shopInventory != players[0].inventory && shopInventory != players[1].inventory
      && 0 <= activePlayerIndex < 2
      && (state != Idle ==> playerInventory != null)
      && (playerInventory != null ==> playerInventory == players[activePlayerIndex].inventory)
    }

    function CurrentSession(): Session
      reads this, players
      requires |players| == 2
    {
      Session(state, activePlayerIndex, [players[0].playerState, players[1].playerState])
    }

    /** Start: an idle shop whose inventory holds the three seed kinds in unlimited supply. */
    constructor (players: seq<PlayerController>, itemDB: seq<Item>, radishSeeds: int, onionSeeds: int, potatoSeeds: int)
      requires |players| == 2 && players[0] != players[1] && players[0].inventory != players[1].inventory
      requires radishSeeds != onionSeeds && radishSeeds != potatoSeeds && onionSeeds != potatoSeeds
      ensures Valid() && fresh(shopInventory) && shopInventory.Valid()
      ensures this.players == players && this.itemDB == itemDB
      ensures shopInventory.View() == Stock(map[radishSeeds := Infinite, onionSeeds := Infinite, potatoSeeds := Infinite], 0)
      ensures state == Idle && activePlayerIndex == 0 && playerInventory == null
      ensures selectedItem == None && itemNames == null && itemDescriptions == null
    {
      this.players := players;
      this.itemDB := itemDB;
      shopInventory := new Inventory();
      playerInventory := null;
      activePlayerIndex := 0;
      state := Idle;
      new;
      shopInventory.AddItem(radishSeeds, Infinite);
      shopInventory.AddItem(onionSeeds, Infinite);
      shopInventory.AddItem(potatoSeeds, Infinite);
      ResetItemData();
    }

    method ResetItemData()
      modifies this`selectedItem, this`itemNames, this`itemDescriptions
      ensures selectedItem == None && itemNames == null && itemDescriptions == null
    {
      selectedItem := None;
      itemNames := null;
      itemDescriptions := null;
    }

    /** Whether the active player may buy `count` of the named item. */
    predicate CanBuy(itemName: string, count: int)
      reads this, playerInventory
      requires playerInventory != null && ItemByName(itemDB, itemName).Some?
      ensures var item := ItemByName(itemDB, itemName).value;
        CanBuy(itemName, count) <==>
          playerInventory.GetItemCount(item.id) + count <= item.maxCount
          && playerInventory.HasMoney(item.price * count)
    {
      BuyAllowed(playerInventory.View(), ItemByName(itemDB, itemName).value, count)
    }

    /** Moves `count` of the item to the player for `price * count`, if the player can pay. */
    method BuyItem(itemName: string, count: int) returns (ok: bool)
      requires Valid() && playerInventory != null && ItemByName(itemDB, itemName).Some?
      requires playerInventory.Valid() && shopInventory.Valid()
      modifies playerInventory, shopInventory
      ensures playerInventory.Valid() && shopInventory.Valid()
      ensures var item := ItemByName(itemDB, itemName).value;
        && ok == Affords(old(playerInventory.View()), item.price * count)
        && (ok ==> && playerInventory.View() == PaidFor(old(playerInventory.View()), item, count)
                   && RemovedFrom(old(shopInventory.View()), shopInventory.View(), item.id, count))
        && (!ok ==> unchanged(playerInventory, shopInventory))
      ensures playerInventory.equipped == old(playerInventory.equipped)
      ensures shopInventory.equipped == old(shopInventory.equipped)
    {
      var item := ItemByName(itemDB, itemName).value;
      var totalCost := item.price * count;
      if playerInventory.HasMoney(totalCost) {
        playerInventory.AddItem(item.id, count);
        shopInventory.RemoveItem(item.id, count);
        playerInventory.RemoveMoney(totalCost);
        return true;
      }
      return false;
    }

    /** Sells `count` of the item if held; a selection whose item is gone is cleared. */
    method SellItem(itemName: string, count: int)
      requires Valid() && playerInventory != null && ItemByName(itemDB, itemName).Some?
      requires playerInventory.Valid()
      modifies this`selectedItem, this`itemNames, this`itemDescriptions, playerInventory
      ensures playerInventory.Valid()
      ensures var item := ItemByName(itemDB, itemName).value;
        && SoldFrom(old(playerInventory.View()), playerInventory.View(), item, count)
        && (!playerInventory.HasItem(item.id) ==> selectedItem == None && itemNames == null && itemDescriptions == null)
        && (playerInventory.HasItem(item.id) ==>
              selectedItem == old(selectedItem) && itemNames == old(itemNames) && itemDescriptions == old(itemDescriptions))
      ensures playerInventory.equipped == old(playerInventory.equipped)
    {
      var item := ItemByName(itemDB, itemName).value;
      if playerInventory.HasItem(item.id) {
        playerInventory.RemoveItem(item.id, count);
        playerInventory.AddMoney(item.sellPrice * count);
      }
      if !playerInventory.HasItem(item.id) {
        ResetItemData();
      }
    }

    /** The Purchase button: buys one of the selected item, only when CanBuy allows it. */
    method Purchase() returns (bought: bool)
      requires Valid() && shopInventory.Valid()
      requires playerInventory != null ==> playerInventory.Valid()
      requires state == Buying && selectedItem.Some? ==> ItemByName(itemDB, selectedItem.value).Some?
      modifies playerInventory, shopInventory
      ensures shopInventory.Valid() && (playerInventory != null ==> playerInventory.Valid())
      ensures bought <==> old(state == Buying && selectedItem.Some? && CanBuy(selectedItem.value, 1))
      ensures bought ==>
        var item := ItemByName(itemDB, selectedItem.value).value;
        && playerInventory.View() == PaidFor(old(playerInventory.View()), item, 1)
        && playerInventory.GetItemCount(item.id) <= item.maxCount
        && RemovedFrom(old(shopInventory.View()), shopInventory.View(), item.id, 1)
      ensures !bought ==> unchanged(shopInventory) && (playerInventory != null ==> unchanged(playerInventory))
      ensures shopInventory.equipped == old(shopInventory.equipped)
      ensures playerInventory != null ==> playerInventory.equipped == old(playerInventory.equipped)
    {
      bought := false;
      if state == Buying && selectedItem.Some? {
        if CanBuy(selectedItem.value, 1) {
          bought := BuyItem(selectedItem.value, 1);
        }
      }
    }

    /** The names of the items an inventory holds, one per held id. */
    method RetrieveItemNames(inventory: Inventory) returns (names: array<string>, ghost ids: seq<int>)
      requires forall id :: id in inventory.counts ==> ItemById(itemDB, id).Some?
      ensures fresh(names) && names.Length == |inventory.counts| == |ids|
      ensures forall i :: 0 <= i < |ids| ==> ids[i] in inventory.counts
      ensures forall id :: id in inventory.counts ==> id in ids
      ensures forall i, j :: 0 <= i < j < |ids| ==> ids[i] != ids[j]
      ensures forall i :: 0 <= i < |ids| ==> ItemById(itemDB, ids[i]).Some? && names[i] == ItemById(itemDB, ids[i]).value.name
    {
      names := new string[|inventory.counts|];
      ids := [];
      var remaining := inventory.counts.Keys;
      var index := 0;
      while remaining != {}
        invariant index == |ids| && index + |remaining| == names.Length
        invariant remaining <= inventory.counts.Keys
        invariant forall i :: 0 <= i < |ids| ==> ids[i] in inventory.counts && ids[i] !in remaining
        invariant forall id :: id in inventory.counts ==> id in ids || id in remaining
        invariant forall i, j :: 0 <= i < j < |ids| ==> ids[i] != ids[j]
        invariant forall i :: 0 <= i < |ids| ==> ItemById(itemDB, ids[i]).Some? && names[i] == ItemById(itemDB, ids[i]).value.name
        decreases |remaining|
      {
        var itemID := AnyId(remaining);
        var item := ItemById(itemDB, itemID).value;
        names[index] := item.name;
        ids := ids + [itemID];
        remaining := remaining - {itemID};
        index := index + 1;
      }
    }

    method SetActivePlayer(playerIndex: int)
      requires Valid() && 0 <= playerIndex < 2
      modifies this`activePlayerIndex, this`playerInventory
      ensures Valid()
      ensures activePlayerIndex == playerIndex && playerInventory == players[playerIndex].inventory
    {
      activePlayerIndex := playerIndex;
      playerInventory := players[playerIndex].inventory;
    }

    /** Gives the shop to `playerIndex` in BUYING state; the other player goes back to Normal. */
    method StartBuying(playerIndex: int)
      requires Valid() && 0 <= playerIndex < 2
      modifies this, players
      ensures Valid()
      ensures CurrentSession() == BuyingStarted(old(CurrentSession()), playerIndex)
      ensures playerInventory == players[playerIndex].inventory
      ensures selectedItem == None && itemNames == null && itemDescriptions == null
      ensures forall i :: 0 <= i < 2 ==> BindingKept(players[i])
    {
      SetActivePlayer(playerIndex);
      var playerController := players[activePlayerIndex];
      playerController.SetShoppingState();
      playerController := players[1 - activePlayerIndex];
      playerController.SetNormalState();
      ResetItemData();
      state := Buying;
    }

    /** Gives the shop to `playerIndex` in SELLING state; no player's mode changes. */
    method StartSelling(playerIndex: int)
      requires Valid() && 0 <= playerIndex < 2
      modifies this
      ensures Valid()
      ensures CurrentSession() == SellingStarted(old(CurrentSession()), playerIndex)
      ensures playerInventory == players[playerIndex].inventory
      ensures selectedItem == None && itemNames == null && itemDescriptions == null
    {
      SetActivePlayer(playerIndex);
      ResetItemData();
      state := Selling;
    }

    /** Closes the session, but only when asked by the active player. */
    method StopShopping(playerIndex: int)
      requires Valid()
      modifies this, players
      ensures Valid()
      ensures CurrentSession() == Stopped(old(CurrentSession()), playerIndex)
      ensures playerIndex == old(activePlayerIndex) ==>
                selectedItem == Some("") && itemNames == null && itemDescriptions == null
      ensures playerIndex != old(activePlayerIndex) ==> unchanged(this) && unchanged(players)
      ensures playerInventory == old(playerInventory)
      ensures forall i :: 0 <= i < 2 ==> BindingKept(players[i])
    {
      if playerIndex == activePlayerIndex {
        var playerController := players[activePlayerIndex];
        playerController.SetNormalState();
        ResetItemData();
        selectedItem := Some("");
        state := Idle;
      }
    }
  }
}
