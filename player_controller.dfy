/**
 * The player controller's mode and action guards (PlayerController.cs).
 *
 * A player is either in Normal mode or Shopping mode, and acts only once bound
 * to an input device and only in Normal mode. Each frame it may hoe, plant,
 * pick and water the tile in front of it and cycle its equipped item. The
 * buttons pressed and the tile in front of the player (which the source finds
 * from positions) are inputs here.
 */
module Players {
  import opened Wrappers
  import opened Plants
  import opened Ground
  import opened Inventories

  /** The source's PlayerState enum. */
  datatype PlayerMode = Shopping | Normal

  /** The buttons pressed in one frame. */
  datatype Buttons = Buttons(hoe: bool, useItem: bool, action: bool, water: bool, swapItem: bool)

  /** The objects an action on `tile` may change: the tile and the plant rooted on it. */
  function TileFrame(tile: GroundTile?): set<object>
    reads tile
  {
    if tile == null then {}
    else if tile.plant == null then {tile}
    else {tile, tile.plant}
  }

  class PlayerController {
    var playerState: PlayerMode
    var isPlayerBound: bool
    var playerIndex: int
    /** The bound input device, as an opaque handle. */
    var playerDevice: int
    const inventory: Inventory

    /** Awake: a new controller is in Normal mode and not bound to a device. */
    constructor (inventory: Inventory)
      ensures this.inventory == inventory
      ensures playerState == Normal && !isPlayerBound && playerIndex == 0
    {
      this.inventory := inventory;
      playerState := Normal;
      isPlayerBound := false;
      playerIndex := 0;
      playerDevice := 0;
    }

    method SetState(state: PlayerMode)
      modifies this`playerState
      ensures playerState == state
    {
      playerState := state;
    }

    method SetNormalState()
      modifies this`playerState
      ensures playerState == Normal
    {
      SetState(Normal);
    }

    method SetShoppingState()
      modifies this`playerState
      ensures playerState == Shopping
    {
      SetState(Shopping);
    }

    /** Equips the next item; `next` is the item the inventory's cycle reaches. */
    method CycleItems(next: Option<Item>)
      modifies inventory`equipped
      ensures inventory.equipped == next
    {
      inventory.EquipNextItem(next);
    }

    method BindPlayer(index: int, device: int, next: Option<Item>)
      modifies this`isPlayerBound, this`playerIndex, this`playerDevice, inventory`equipped
      ensures isPlayerBound && playerIndex == index && playerDevice == device
      ensures playerState == old(playerState)
      ensures inventory.equipped == next
    {
      isPlayerBound := true;
      playerIndex := index;
      playerDevice := device;
      CycleItems(next);
    }

    /** Hoes the action tile whenever there is one. */
    method TryHoe(pressed: bool, tile: GroundTile?)
      modifies tile
      ensures tile != null ==> tile.state == if pressed then Hoed(old(tile.state)) else old(tile.state)
      ensures tile != null ==> tile.plant == old(tile.plant)
    {
      if pressed {
        if tile != null {
          tile.Hoe();
        }
      }
    }

    /** Plants the equipped item on an empty soil tile and uses up one of it. */
    method TryPlanting(pressed: bool, tile: GroundTile?)
      requires inventory.Valid()
      modifies tile, inventory`counts
      ensures inventory.Valid()
      ensures tile != null ==> tile.state == old(tile.state)
      ensures var planted := pressed && tile != null && old(tile.state) == Soil && old(tile.plant) == null
                             && old(inventory.equipped).Some?;
        && (planted ==>
              && tile.plant != null && fresh(tile.plant)
              && tile.plant.Settings() == old(inventory.equipped).value.plant
              && tile.plant.plantState == Seed && tile.plant.initialState == Seed
              && RemovedFrom(old(inventory.View()), inventory.View(), old(inventory.equipped).value.id, 1))
        && (!planted ==> inventory.counts == old(inventory.counts) && (tile != null ==> tile.plant == old(tile.plant)))
    {
      if pressed {
        if tile != null {
          if tile.IsSoil() && tile.GetPlant() == null {
            var equippedItem := inventory.GetEquippedItem();
            if equippedItem.Some? {
              tile.PlantFrom(equippedItem.value.plant);
              inventory.RemoveItem(equippedItem.value.id, 1);
            }
          }
        }
      }
    }

    /** Picks a ripe plant on the action tile and adds one of its item to the inventory. */
    method TryPicking(pressed: bool, tile: GroundTile?)
      requires inventory.Valid()
      modifies TileFrame(tile), inventory`counts
      ensures inventory.Valid()
      ensures var picked := pressed && tile != null && old(tile.plant) != null && old(tile.plant.plantState) == Ripe;
        && (picked ==>
              && inventory.View() == Added(old(inventory.View()), old(tile.plant.itemGrownID), 1)
              && old(tile.plant).Settings() == old(tile.plant.Settings())
              && old(tile.plant).initialState == old(tile.plant.initialState)
              && old(tile.plant).View() == Picked(old(tile.plant.Settings()), old(tile.plant.View()))
              && tile.plant == (if old(tile.plant.isRepickable) then old(tile.plant) else null))
        && (!picked ==> inventory.counts == old(inventory.counts) && unchanged(old(TileFrame(tile))))
      ensures tile != null ==> tile.state == old(tile.state) && (tile.plant == old(tile.plant) || tile.plant == null)
    {
      if pressed {
        if tile != null {
          var plant := tile.GetPlant();
          if plant != null && plant.IsRipe() {
            var pickedItemID := tile.Pick();
            inventory.AddItem(pickedItemID, 1);
          }
        }
      }
    }

    /** Waters the plant on the action tile, if there is one. */
    method TryWatering(pressed: bool, tile: GroundTile?)
      modifies TileFrame(tile)
      ensures tile != null ==> unchanged(tile)
      ensures var watered := pressed && tile != null && old(tile.plant) != null;
        && (watered ==> tile.plant.View() == Watered(old(tile.plant.Settings()), old(tile.plant.View()))
                        && tile.plant.Settings() == old(tile.plant.Settings())
                        && tile.plant.initialState == old(tile.plant.initialState))
        && (!watered ==> unchanged(TileFrame(tile)))
    {
      if pressed {
        if tile != null {
          var plant := tile.GetPlant();
          if plant != null {
            plant.Water();
          }
        }
      }
    }

    method TryCycleItems(pressed: bool, next: Option<Item>)
      modifies inventory`equipped
      ensures inventory.equipped == if pressed then next else old(inventory.equipped)
    {
      if pressed {
        CycleItems(next);
      }
    }

    /** One frame: no action runs unless the player is bound and in Normal mode. */
    method Update(buttons: Buttons, tile: GroundTile?, next: Option<Item>)
      requires inventory.Valid()
      modifies TileFrame(tile), inventory
      ensures inventory.Valid()
      ensures playerState == old(playerState) && isPlayerBound == old(isPlayerBound)
      ensures !old(isPlayerBound) || old(playerState) != Normal ==>
                unchanged(inventory) && unchanged(old(TileFrame(tile)))
    {
      if !isPlayerBound {
        return;
      }
      if playerState == Normal {
        TryHoe(buttons.hoe, tile);
        TryPlanting(buttons.useItem, tile);
        TryPicking(buttons.action, tile);
        TryWatering(buttons.water, tile);
        TryCycleItems(buttons.swapItem, next);
      }
    }
  }
}
