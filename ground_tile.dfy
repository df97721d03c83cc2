/**
 * The ground tile state machine (GroundTile.cs): hoeing turns Grass into Dirt
 * and Dirt into Soil; Soil stays Soil.
 *
 * The tile also owns the plant rooted on it. The members that read and change
 * that plant (IsSoil, GetPlant, PlantFrom, Pick) are called by the player
 * controller but are not in the GroundTile.cs shown; their bodies here are the
 * assumed behaviour described in the README.
 */
module Ground {
  import opened Plants

  datatype GroundState = Dirt | Grass | Soil

  /** The state a tile is in after one Hoe. */
  function Hoed(s: GroundState): (r: GroundState)
    ensures r != Grass
    ensures s == Soil ==> r == Soil
    ensures s == Dirt ==> r == Soil
    ensures s == Grass ==> r == Dirt
  {
    match s
    case Dirt => Soil
    case Grass => Dirt
    case Soil => Soil
  }

  /** From any state, two Hoes reach Soil, and further Hoes leave it there. */
  lemma HoeTwiceReachesSoil(s: GroundState)
    ensures Hoed(Hoed(s)) == Soil
    ensures Hoed(Hoed(Hoed(s))) == Soil
  {
  }

  class GroundTile {
    var state: GroundState
    var plant: Plant?

    /** A new tile is Dirt with nothing planted. */
    constructor ()
      ensures state == Dirt && plant == null
    {
      state := Dirt;
      plant := null;
    }

    method SetState(newState: GroundState)
      modifies this`state
      ensures state == newState
    {
      state := newState;
    }

    method Hoe()
      modifies this`state
      ensures state == Hoed(old(state))
    {
      match state {
        case Dirt => SetState(Soil);
        case Grass => SetState(Dirt);
        case Soil =>
      }
    }

    /** Whether the tile has been hoed to Soil, the only state a seed can be planted in. */
    predicate IsSoil()
      reads this
      ensures IsSoil() <==> state == Soil
      ensures IsSoil() ==> Hoed(state) == state
    {
      state == Soil
    }

    /** The plant rooted on this tile, or null. */
    function GetPlant(): (r: Plant?)
      reads this
      ensures r == plant
    {
      plant
    }

    /** Roots a newly instantiated plant prefab on this tile. */
    method PlantFrom(template: Config)
      modifies this`plant
      ensures plant != null && fresh(plant)
      ensures plant.Settings() == template && plant.plantState == Seed && plant.initialState == Seed
    {
      plant := new Plant(template);
    }

    /** Picks the plant's fruit; a plant that cannot be picked again is removed. */
    method Pick() returns (id: int)
      requires plant != null
      modifies this`plant, plant
      ensures id == old(plant.itemGrownID)
      ensures old(plant).Settings() == old(plant.Settings()) && old(plant).initialState == old(plant.initialState)
      ensures old(plant).View() == Picked(old(plant.Settings()), old(plant.View()))
      ensures plant == if old(plant.isRepickable) then old(plant) else null
    {
      id := plant.PickFruit();
      if !plant.isRepickable {
        plant := null;
      }
    }
  }
}
