# Farm with Friends: gameplay rules in Dafny

This project models the gameplay core of a two-player farming game. It covers four parts:

- **Plants** (`plant.dfy`, module `Plants`). A plant ages one step per night. It grows Seed → Sprout → Ripe on a schedule. It withers for good when its life runs out, and watering restores that life. Picking a repickable plant sends it back to Sprout.
- **Ground tiles** (`ground_tile.dfy`, module `Ground`). Hoeing turns Grass into Dirt and Dirt into Soil; Soil stays Soil.
- **The travelling merchant** (`shop.dfy`, module `Shops`). A shop session is idle, buying or selling, and belongs to one active player. Buying moves `count` items from the shop's stock to the player and takes `price * count` from the player. Selling removes items from the player and pays `sellPrice * count`. The shop's money never changes, and sold items do not go back to the shop. Together with the players' Normal/Shopping modes, the session forms a two-player mutual-exclusion machine.
- **The player controller** (`player_controller.dfy`, module `Players`). Each frame, a bound player in Normal mode may hoe, plant, pick, water and cycle its equipped item, each under a guard.

The inventory and the item catalogue (`inventory.dfy`, module `Inventories`) are collaborators whose source is not part of this model. They hold only what their call sites rely on.

Each source class is a Dafny `class` with the source's fields, and its methods update those fields step by step. Each class also has a value view (`Plant.View`, `Inventory.View`, `Shop.CurrentSession`). The methods' postconditions tie the new view to a specification function of the old one: `AfterNight`, `Watered`, `Picked`, `Fresh`, `Hoed`, `Added`, `PaidFor`, `SoldFrom`, `BuyingStarted`, `SellingStarted` and `Stopped`. Lemmas about those functions state the game rules over many steps:

- withering is terminal;
- an unwatered plant dies;
- growth happens exactly on schedule;
- buying one item and selling it back restores the player's counts;
- no sequence of session events lets both players shop at once.

The tile in front of the player and the buttons pressed are inputs to the controller's methods. The item that the inventory's cycle equips next is an input too.

## Model

| member | source | states |
|---|---|---|
| Plants.Defaulted | Assets/Scripts/ProjectScripts/Plant.cs:51-58 | a zero nightsPerGrowth or maxLife becomes 1; any other value, negatives included, is kept |
| Plants.Fresh | Assets/Scripts/ProjectScripts/Plant.cs:59-65 | after Start the counters are 0, curLife is maxLife - 1, the stage is the initial stage, and the waterable and dry flags agree with them |
| Plants.Plant.constructor | Assets/Scripts/ProjectScripts/Plant.cs:11-24 | a new plant carries its prefab settings and has Seed as its initial stage |
| Plants.Plant.Start | Assets/Scripts/ProjectScripts/Plant.cs:49-65 | Start applies the defaulting, keeps the other settings and leaves the plant in the Fresh state for its initial stage, with the invariant established |
| Plants.Plant.StartAsAdult | Assets/Scripts/ProjectScripts/Plant.cs:207-210 | the initial stage becomes Ripe |
| Plants.AfterNight | Assets/Scripts/ProjectScripts/Plant.cs:76-96 | every night nightsOld rises and curLife falls, even on a withered plant; Withered is absorbing; withering wins over growth; a growth night advances exactly one stage and resets nightsSinceGrowth; otherwise the stage is kept, Ripe included, and the counter keeps counting; the flag invariant is preserved |
| Plants.Plant.NightlyUpdate | Assets/Scripts/ProjectScripts/Plant.cs:76-96 | the fields after the update are AfterNight of the fields before; settings unchanged; the invariant is kept |
| Plants.Plant.Grow | Assets/Scripts/ProjectScripts/Plant.cs:101-119 | Seed and Sprout advance one stage with the counter reset; Ripe and Withered leave every field as it was |
| Plants.Plant.SetPlantState | Assets/Scripts/ProjectScripts/Plant.cs:124-134 | the stage is set; canBeWatered is false exactly for Withered or non-repickable Ripe; the dry flag is recomputed only when watering becomes impossible |
| Plants.Plant.ShowIfDry | Assets/Scripts/ProjectScripts/Plant.cs:157-160 | the dry flag becomes canBeWatered && curLife <= 0 and nothing else changes |
| Plants.Picked | Assets/Scripts/ProjectScripts/Plant.cs:167-176 | a repickable plant goes back to a waterable Sprout; otherwise nothing changes; counters are untouched and the invariant is preserved |
| Plants.Plant.PickFruit | Assets/Scripts/ProjectScripts/Plant.cs:167-176 | returns itemGrownID, and the plant's fields become Picked of the old ones |
| Plants.Watered | Assets/Scripts/ProjectScripts/Plant.cs:182-186 | curLife becomes maxLife; stage, waterability and counters are kept; the invariant is preserved |
| Plants.Plant.Water | Assets/Scripts/ProjectScripts/Plant.cs:182-186 | the plant's fields become Watered of the old ones |
| Plants.Plant.IsWithered | Assets/Scripts/ProjectScripts/Plant.cs:191-194 | under the invariant, a withered plant cannot be watered and shows no water drop |
| Plants.Plant.IsRipe | Assets/Scripts/ProjectScripts/Plant.cs:199-202 | under the invariant, a ripe plant can be watered exactly when it is repickable |
| Plants.Nights | Assets/Scripts/ProjectScripts/Plant.cs:78-80 | after k unattended nights, curLife has fallen by k and nightsOld has risen by k |
| Plants.WitheredIsAbsorbing | Assets/Scripts/ProjectScripts/Plant.cs:82 | once withered, a plant stays withered for any number of nights |
| Plants.WithersWithoutWater | Assets/Scripts/ProjectScripts/Plant.cs:80-87 | a plant left unwatered for more nights than its life above MIN_LIFE is withered |
| Plants.DriesOutWithinMaxLifePlusOne | Assets/Scripts/ProjectScripts/Plant.cs:80-87 | with at most a full life, maxLife + 1 dry nights always kill a plant |
| Plants.WaterThenNightSurvives | Assets/Scripts/ProjectScripts/Plant.cs:182-186 | with maxLife >= 1, a living plant that is watered and then left for one night does not wither that night, and ends the night at maxLife - 1 |
| Plants.QuietNights | Assets/Scripts/ProjectScripts/Plant.cs:92-94 | a living Seed or Sprout keeps its stage while its growth counter stays below nightsPerGrowth |
| Plants.GrowsOnSchedule | Assets/Scripts/ProjectScripts/Plant.cs:92-119 | a well-watered Seed or Sprout whose counter was just reset grows on night nightsPerGrowth and not before, and its counter restarts at 0 |
| Ground.Hoed | Assets/Scripts/GroundTile.cs:48-58 | Hoe maps Dirt to Soil, Grass to Dirt and Soil to Soil, and never yields Grass |
| Ground.HoeTwiceReachesSoil | Assets/Scripts/GroundTile.cs:48-58 | from any state two hoes reach Soil, and a third leaves it there |
| Ground.GroundTile.constructor | Assets/Scripts/GroundTile.cs:20 | a new tile is Dirt with nothing planted |
| Ground.GroundTile.SetState | Assets/Scripts/GroundTile.cs:26-41 | the state becomes the given one |
| Ground.GroundTile.Hoe | Assets/Scripts/GroundTile.cs:46-61 | the new state is Hoed of the old one |
| Ground.GroundTile.IsSoil | Assets/Scripts/ProjectScripts/PlayerController.cs:198 | true exactly when the tile is Soil, the state hoeing leaves fixed |
| Ground.GroundTile.GetPlant | Assets/Scripts/ProjectScripts/PlayerController.cs:221 | the plant rooted on the tile, or null |
| Ground.GroundTile.PlantFrom | Assets/Scripts/ProjectScripts/PlayerController.cs:201-202 | the tile holds a new Seed plant with the equipped item's plant settings |
| Ground.GroundTile.Pick | Assets/Scripts/ProjectScripts/PlayerController.cs:224 | returns the plant's item id, applies PickFruit to it with its settings and initial stage kept, and detaches it unless it is repickable |
| Inventories.ItemByName | Assets/Scripts/ProjectScripts/Shop.cs:218 | a found item is a catalogue entry with that name; None means no entry has that name |
| Inventories.ItemById | Assets/Scripts/ProjectScripts/Shop.cs:269 | a found item is a catalogue entry with that id; None means no entry has that id |
| Inventories.Added | Assets/Scripts/ProjectScripts/Shop.cs:251 | AddItem raises the count of one id by n, keeps every other count and the money, and keeps counts positive |
| Inventories.SameCountsSameMap | Assets/Scripts/ProjectScripts/Shop.cs:219-224 | a fact about how an inventory represents its counts, used by BuyThenSellRestores: two well-formed inventories that agree on every GetItemCount hold the same items |
| Inventories.Inventory.constructor | Assets/Scripts/ProjectScripts/Shop.cs:50 | a new inventory holds nothing, has no money and has nothing equipped |
| Inventories.Inventory.GetItemCount | Assets/Scripts/ProjectScripts/Shop.cs:235 | the held count of an id, zero for an id not held, never negative in a valid inventory |
| Inventories.Inventory.HasItem | Assets/Scripts/ProjectScripts/Shop.cs:219 | true exactly when at least one of the item is held |
| Inventories.Inventory.HasMoney | Assets/Scripts/ProjectScripts/Shop.cs:238 | true exactly when the money is at least the amount |
| Inventories.Inventory.GetEquippedItem | Assets/Scripts/ProjectScripts/PlayerController.cs:200 | the equipped item, None when nothing is equipped |
| Inventories.Inventory.AddItem | Assets/Scripts/ProjectScripts/Shop.cs:251 | the inventory becomes Added of the old one |
| Inventories.Inventory.RemoveItem | Assets/Scripts/ProjectScripts/Shop.cs:220 | money and other ids are untouched; removing at most what is held from an ordinary stack lowers it by exactly n |
| Inventories.Inventory.AddMoney | Assets/Scripts/ProjectScripts/Shop.cs:221 | money rises by the amount |
| Inventories.Inventory.RemoveMoney | Assets/Scripts/ProjectScripts/Shop.cs:253 | money falls by the amount |
| Inventories.Inventory.EquipNextItem | Assets/Scripts/ProjectScripts/PlayerController.cs:278 | the equipped item becomes the next one in the cycle |
| Shops.Shop.constructor | Assets/Scripts/ProjectScripts/Shop.cs:38-58 | the shop starts idle, with no selection, holding exactly the three seed ids at int.MaxValue each |
| Shops.Shop.ResetItemData | Assets/Scripts/ProjectScripts/Shop.cs:205-210 | selection, names and descriptions are cleared |
| Shops.Shop.CanBuy | Assets/Scripts/ProjectScripts/Shop.cs:232-239 | true exactly when held + count <= maxCount and the player has price * count |
| Shops.PaidFor | Assets/Scripts/ProjectScripts/Shop.cs:249-253 | the player gains count of the item and loses price * count; nothing else changes |
| Shops.Shop.BuyItem | Assets/Scripts/ProjectScripts/Shop.cs:246-257 | succeeds exactly when the player can pay, and then the player's inventory is PaidFor and count is removed from the shop; on failure neither inventory changes; the equipped items are kept |
| Shops.StackLimitNotRechecked | Assets/Scripts/ProjectScripts/Shop.cs:248-254 | for a concrete item and inventory, CanBuy is false but BuyItem's own test passes and the count exceeds maxCount |
| Shops.Shop.Purchase | Assets/Scripts/ProjectScripts/Shop.cs:86-99 | BuyItem runs exactly when the shop is buying, an item is selected and CanBuy allows one; then one item is paid for and the stack limit holds; otherwise no inventory changes; the equipped items are kept |
| Shops.PurchaseKeepsLimits | Assets/Scripts/ProjectScripts/Shop.cs:93-94 | a purchase that CanBuy allows keeps the stack limit and leaves money non-negative |
| Shops.Shop.SellItem | Assets/Scripts/ProjectScripts/Shop.cs:216-227 | a held item is removed and sellPrice * count is paid; an item not held changes nothing; the selection is cleared exactly when the item is no longer held; the equipped item is kept |
| Shops.BuyThenSellRestores | Assets/Scripts/ProjectScripts/Shop.cs:216-257 | buying one item and selling it back restores every count, and the money drops by price - sellPrice |
| Shops.Shop.RetrieveItemNames | Assets/Scripts/ProjectScripts/Shop.cs:263-274 | one name per held id, each the catalogue name of a distinct held id, and every held id is listed |
| Shops.AnyId | Assets/Scripts/ProjectScripts/Shop.cs:268 | the key the dictionary walk visits next is one not yet visited |
| Shops.Shop.SetActivePlayer | Assets/Scripts/ProjectScripts/Shop.cs:302-306 | the active index is set and the shop works on that player's inventory |
| Shops.BuyingStarted | Assets/Scripts/ProjectScripts/Shop.cs:336-347 | player p becomes the active, shopping player, the other player is Normal, the state is BUYING, and exclusion holds |
| Shops.Shop.StartBuying | Assets/Scripts/ProjectScripts/Shop.cs:336-347 | the session becomes BuyingStarted of the old one, the selection is cleared, and both players keep their device binding |
| Shops.SellingStarted | Assets/Scripts/ProjectScripts/Shop.cs:352-357 | the active player changes and the state is SELLING; no mode changes; exclusion is kept when the active player asks |
| Shops.SellingForInactivePlayerBreaksExclusion | Assets/Scripts/ProjectScripts/Shop.cs:352-357 | StartSelling for the other player during a session leaves a shopping player who is not the active one |
| Shops.Shop.StartSelling | Assets/Scripts/ProjectScripts/Shop.cs:352-357 | the session becomes SellingStarted of the old one, and the selection is cleared |
| Shops.Stopped | Assets/Scripts/ProjectScripts/Shop.cs:362-371 | a stop from a non-active player changes nothing; from the active player it closes the session and returns that player to Normal; exclusion is kept |
| Shops.Shop.StopShopping | Assets/Scripts/ProjectScripts/Shop.cs:362-371 | the session becomes Stopped of the old one; the active player's stop sets the selection to the empty string; any other player's stop changes nothing; the player inventory and both players' device bindings are kept |
| Shops.StopOnlyByActivePlayer | Assets/Scripts/ProjectScripts/Shop.cs:364 | after player 0 starts buying, player 1's stop does nothing and player 0's closes the shop with both players Normal |
| Shops.Step | Assets/Scripts/ProjectScripts/Shop.cs:336-371 | a session event (start buying, the Sell and Buy buttons, stop) keeps the session well formed |
| Shops.Run | Assets/Scripts/ProjectScripts/Shop.cs:336-371 | a sequence of session events keeps the session well formed |
| Shops.RunKeepsExclusive | Assets/Scripts/ProjectScripts/Shop.cs:336-371 | from an exclusive session, every sequence of events keeps it exclusive, so the two players are never both Shopping |
| Players.PlayerController.constructor | Assets/Scripts/ProjectScripts/PlayerController.cs:30-35 | a new controller is in Normal mode and unbound |
| Players.PlayerController.SetState | Assets/Scripts/ProjectScripts/PlayerController.cs:316-319 | the mode becomes the given one and nothing else changes |
| Players.PlayerController.SetNormalState | Assets/Scripts/ProjectScripts/PlayerController.cs:321-324 | the mode becomes Normal and nothing else changes |
| Players.PlayerController.SetShoppingState | Assets/Scripts/ProjectScripts/PlayerController.cs:326-329 | the mode becomes Shopping and nothing else changes |
| Players.PlayerController.CycleItems | Assets/Scripts/ProjectScripts/PlayerController.cs:275-279 | the inventory equips the next item |
| Players.PlayerController.BindPlayer | Assets/Scripts/ProjectScripts/PlayerController.cs:345-354 | the player is bound with the given index and device, keeps its mode, and the next item is equipped |
| Players.PlayerController.TryHoe | Assets/Scripts/ProjectScripts/PlayerController.cs:173-185 | when pressed and there is a tile, the tile is hoed; its plant is untouched |
| Players.PlayerController.TryPlanting | Assets/Scripts/ProjectScripts/PlayerController.cs:191-208 | planting happens exactly on a soil tile with no plant and an equipped item; it roots a new plant of that item, in Seed and with Seed as its initial stage, and removes one of it; otherwise the inventory and the plant are unchanged |
| Players.PlayerController.TryPicking | Assets/Scripts/ProjectScripts/PlayerController.cs:214-230 | picking happens exactly when the tile's plant exists and is ripe; it adds one of the plant's item, applies PickFruit with the plant's settings and initial stage kept, and detaches the plant exactly when it is not repickable; otherwise the tile, plant and inventory are unchanged |
| Players.PlayerController.TryWatering | Assets/Scripts/ProjectScripts/PlayerController.cs:235-248 | an existing plant on the tile is Watered, with its settings and initial stage kept; the tile itself never changes, and nothing changes without a plant |
| Players.PlayerController.TryCycleItems | Assets/Scripts/ProjectScripts/PlayerController.cs:264-270 | when pressed, the next item is equipped; otherwise the equipped item is kept |
| Players.PlayerController.Update | Assets/Scripts/ProjectScripts/PlayerController.cs:42-60 | an unbound player, or one not in Normal mode, changes neither its inventory nor the tile or plant in front of it; the mode and binding never change |

## Left out

- Rendering, audio and effects: materials, `RenderPlantState`, the plant's text label, `Awake`'s child search, `SpawnDirtFX`, `SpawnWaterFX` and the sounds. The water drop is kept as the boolean `waterDropShown`.
- Movement, gravity, the reticule and `GetActionTile`: the tile in front of the player is an input to the controller's methods, and `null` means there is none.
- Raw input polling: which buttons were pressed in a frame is the `Buttons` input.
- `TryDebugs`: calling the shop from the controller would make the two modules depend on each other. Its effect on the session, `StartBuying` for the player, is the `StartBuyingFor` session event.
- `OnGUI` layout, `DisplayInventoryData`, `DisplayItemDescription`, `DisplayBuySellButton` and `ManageFocus`: screen arithmetic, focus and timing. Only the Purchase button's guard is modelled (`Shop.Purchase`). The Sell, Buy and Stop buttons appear as session events.
- `RetrieveItemDescriptions`: price text formatting.
- `FindActivePlayer` and `FindInactivePlayer`: the shop holds exactly two players, indexed 0 and 1, and the inactive player is `1 - active`.
- FarmTerrain.cs and HUD.cs: world generation from random numbers and floats, and UI drawing.
- Shops.Shop.constructor: the shop's inventory component is assumed to start empty, with no money, before the three seed stacks are added.
- Inventory.cs, ItemDatabase.cs and ItemIDs are not part of this model. The model assumes that a stack whose count falls to zero is removed from the inventory's map, which decides `HasItem` and the number of names `RetrieveItemNames` returns. `Inventory` keeps what the call sites use: counts, money, the equipped item, and the lookups by name and by id. The three seed ids are constructor inputs, assumed distinct.
- Inventories.Inventory.RemoveItem: stated only relationally. It promises exact removal only when 0 <= n <= held and the stack is not the `int.MaxValue` sentinel; the sentinel and over-removal are left open.
- Inventories.Inventory.EquipNextItem: the cycling order is not shown, so the next item is a parameter.
- Ground.GroundTile.Pick: `isSoil`, `getPlant`, `Plant` and `Pick` are called by the controller but are not in GroundTile.cs. They are assumed to read the state, return the rooted plant, root a new plant, and pick its fruit. `Pick` detaches a plant that is not repickable.
- A plant rooted by `TryPlanting` is not started in the same frame. Unity runs `Start` later, so the new plant has its prefab settings and default counters until then.
- Shops.PaidFor: uses mathematical integers. C# `int` overflow of `price * count` is not modelled, nor of adding to an `int.MaxValue` stack.
- Debug log output (`Debug.LogError`, `Debug.Log`) is not modelled.
- Players.PlayerController.Update: states the mode gating and what stays fixed. That the mode and binding never change holds only because the debug key is left out: in the game, `TryDebugs` runs during `Update` and can call the shop's `StartBuying`, which puts this player into Shopping mode. The combined effect of the five actions in one frame is given by their own contracts.
- Shops.Shop.RetrieveItemNames: the order of the dictionary's keys is not modelled. The names come in some order of distinct held ids.

`CanBuy` checks both the stack limit and money, but `BuyItem` re-checks only money; the model follows the code. `StackLimitNotRechecked` exhibits an input where the two differ. The only caller, the Purchase button, checks `CanBuy` first, so the stack limit holds there (`PurchaseKeepsLimits`).

`StartSelling` changes no player's mode. Called for a player other than the one shopping, it would leave that other player in Shopping mode while the session belongs to someone else (`SellingForInactivePlayerBreaksExclusion`). The game only calls it from the Sell button, for the active player, and under that use exclusion holds (`RunKeepsExclusive`).
