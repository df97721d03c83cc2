/**
 * The plant growth / wither state machine (Plant.cs).
 *
 * A plant ages one step per night. Its life counter drops every night and is
 * restored by watering; when it falls below MinLife the plant withers, which is
 * terminal. Otherwise, once enough nights have passed since the last growth, the
 * plant advances one stage (Seed -> Sprout -> Ripe). Picking a repickable ripe
 * plant sends it back to Sprout.
 *
 * The class Plant keeps the source's fields and updates them step by step; the
 * functions on PlantView below are the specification its methods are proved
 * against, and the lemmas state the game rules over many nights.
 */
module Plants {

  /** The source's PlantState enum, in declaration order. */
  datatype Stage = Seed | Sprout | Ripe | Withered

  /** MIN_LIFE: a plant whose life falls below this value withers. */
  const MinLife: int := 0

  /** The attributes a designer sets on a plant prefab. */
  datatype Config = Config(itemGrownID: int, nightsPerGrowth: int, maxLife: int, isRepickable: bool)

  /**
   * The observable state of a plant: its stage, its three counters, whether it
   * may be watered, and whether the water drop ("needs water" marker) is shown.
   */
  datatype PlantView = PlantView(
    stage: Stage,
    curLife: int,
    nightsSinceGrowth: int,
    nightsOld: int,
    canBeWatered: bool,
    dry: bool)

  /** The configuration fix-up done when a plant starts: only a zero value is replaced. */
  function Defaulted(n: int): (r: int)
    ensures r != 0
    ensures n != 0 ==> r == n
    ensures n == 0 ==> r == 1
  {
    if n == 0 then 1 else n
  }

  /** A plant can be watered unless it is withered, or ripe and not repickable. */
  predicate Waterable(c: Config, s: Stage) {
    !(s == Withered || (s == Ripe && !c.isRepickable))
  }

  /** The "needs water" marker. */
  predicate DryFlag(canBeWatered: bool, curLife: int) {
    canBeWatered && curLife <= MinLife
  }

  /** The flags agree with the stage and the life counter. */
  predicate Consistent(c: Config, v: PlantView) {
    && v.canBeWatered == Waterable(c, v.stage)
    && v.dry == DryFlag(v.canBeWatered, v.curLife)
  }

  /** The stage a growth step leads to; Ripe and Withered do not grow. */
  function NextStage(s: Stage): Stage {
    match s
    case Seed => Sprout
    case Sprout => Ripe
    case _ => s
  }

  /** The effect of SetPlantState: the marker is recomputed only when watering becomes impossible. */
  function Staged(c: Config, v: PlantView, s: Stage): PlantView {
    var w := Waterable(c, s);
    v.(stage := s, canBeWatered := w, dry := if w then v.dry else DryFlag(w, v.curLife))
  }

  /** The effect of ShowIfDry. */
  function ShowDry(v: PlantView): PlantView {
    v.(dry := DryFlag(v.canBeWatered, v.curLife))
  }

  /** The state right after Start, for the given initial stage. */
  function Fresh(c: Config, s: Stage): (r: PlantView)
    ensures r.stage == s
    ensures r.nightsOld == 0 && r.nightsSinceGrowth == 0 && r.curLife == c.maxLife - 1
    ensures Consistent(c, r)
  {
    var w := Waterable(c, s);
    PlantView(s, c.maxLife - 1, 0, 0, w, DryFlag(w, c.maxLife - 1))
  }

  /** Whether the coming night makes a plant in state v grow. */
  predicate GrowsTonight(c: Config, v: PlantView) {
    && (v.stage == Seed || v.stage == Sprout)
    && v.curLife - 1 >= MinLife
    && v.nightsSinceGrowth + 1 >= c.nightsPerGrowth
  }

  /** The effect of one NightlyUpdate. */
  function AfterNight(c: Config, v: PlantView): (r: PlantView)
    // the counters move every night, whatever the stage
    ensures r.nightsOld == v.nightsOld + 1 && r.curLife == v.curLife - 1
    // Withered is absorbing
    ensures v.stage == Withered ==> r.stage == Withered && r.nightsSinceGrowth == v.nightsSinceGrowth + 1
    // withering wins over growth
    ensures v.stage != Withered && v.curLife - 1 < MinLife ==>
              r.stage == Withered && r.nightsSinceGrowth == v.nightsSinceGrowth + 1
    // a growth step advances exactly one stage and restarts the growth counter
    ensures GrowsTonight(c, v) ==> r.stage == NextStage(v.stage) != v.stage && r.nightsSinceGrowth == 0
    // otherwise a living plant keeps its stage (Ripe included) and its growth counter keeps counting
    ensures v.stage != Withered && v.curLife - 1 >= MinLife && !GrowsTonight(c, v) ==>
              r.stage == v.stage && r.nightsSinceGrowth == v.nightsSinceGrowth + 1
    ensures Consistent(c, v) ==> Consistent(c, r)
  {
    var aged := v.(nightsOld := v.nightsOld + 1,
                   nightsSinceGrowth := v.nightsSinceGrowth + 1,
                   curLife := v.curLife - 1);
    if v.stage == Withered then aged
    else if aged.curLife < MinLife then Staged(c, aged, Withered)
    else
      var checked := ShowDry(aged);
      if checked.nightsSinceGrowth >= c.nightsPerGrowth && (v.stage == Seed || v.stage == Sprout)
      then Staged(c, checked.(nightsSinceGrowth := 0), NextStage(v.stage))
      else checked
  }

  /** The effect of Water. */
  function Watered(c: Config, v: PlantView): (r: PlantView)
    ensures r.curLife == c.maxLife
    ensures r.stage == v.stage && r.canBeWatered == v.canBeWatered
    ensures r.nightsOld == v.nightsOld && r.nightsSinceGrowth == v.nightsSinceGrowth
    ensures Consistent(c, v) ==> Consistent(c, r)
  {
    ShowDry(v.(curLife := c.maxLife))
  }

  /** The effect of PickFruit on the plant. */
  function Picked(c: Config, v: PlantView): (r: PlantView)
    ensures c.isRepickable ==> r.stage == Sprout && r.canBeWatered
    ensures !c.isRepickable ==> r == v
    ensures r.curLife == v.curLife && r.nightsOld == v.nightsOld && r.nightsSinceGrowth == v.nightsSinceGrowth
    ensures Consistent(c, v) ==> Consistent(c, r)
  {
    if c.isRepickable then ShowDry(Staged(c, v, Sprout)) else v
  }

  /** The state after k nights without watering or picking. */
  function Nights(c: Config, v: PlantView, k: nat): (r: PlantView)
    ensures r.curLife == v.curLife - k && r.nightsOld == v.nightsOld + k
  {
    if k == 0 then v else AfterNight(c, Nights(c, v, k - 1))
  }

  /** Once withered, a plant stays withered whatever number of nights pass. */
  lemma {:induction false} WitheredIsAbsorbing(c: Config, v: PlantView, k: nat)
    requires v.stage == Withered
    ensures Nights(c, v, k).stage == Withered
  {
    if k > 0 {
      WitheredIsAbsorbing(c, v, k - 1);
    }
  }

  /**
   * A plant left unwatered withers on the first night its life falls below
   * MinLife, and stays withered afterwards.
   */
  lemma WithersWithoutWater(c: Config, v: PlantView, k: nat)
    requires k >= 1 && k > v.curLife - MinLife
    ensures Nights(c, v, k).stage == Withered
  {
    var before := Nights(c, v, k - 1);
    assert before.curLife - 1 < MinLife;
  }

  /** Starting with at most a full life, no plant survives maxLife + 1 dry nights. */
  lemma DriesOutWithinMaxLifePlusOne(c: Config, v: PlantView, k: nat)
    requires c.maxLife >= 0 && v.curLife <= c.maxLife
    requires k >= c.maxLife + 1
    ensures Nights(c, v, k).stage == Withered
  {
    WithersWithoutWater(c, v, k);
  }

  /** A plant watered and then left for one night is not withered by that night. */
  lemma WaterThenNightSurvives(c: Config, v: PlantView)
    requires c.maxLife >= 1 && v.stage != Withered
    ensures AfterNight(c, Watered(c, v)).stage != Withered
    ensures AfterNight(c, Watered(c, v)).curLife == c.maxLife - 1
  {
  }

  /**
   * A living Seed or Sprout keeps its stage for as long as its growth counter
   * stays below nightsPerGrowth.
   */
  lemma {:induction false} QuietNights(c: Config, v: PlantView, k: nat)
    requires v.stage == Seed || v.stage == Sprout
    requires v.nightsSinceGrowth + k < c.nightsPerGrowth
    requires v.curLife - k >= MinLife
    ensures Nights(c, v, k).stage == v.stage
    ensures Nights(c, v, k).nightsSinceGrowth == v.nightsSinceGrowth + k
  {
    if k > 0 {
      QuietNights(c, v, k - 1);
    }
  }

  /**
   * A well-watered Seed or Sprout whose growth counter was just reset grows
   * exactly on night nightsPerGrowth, and not before.
   */
  lemma GrowsOnSchedule(c: Config, v: PlantView)
    requires v.stage == Seed || v.stage == Sprout
    requires v.nightsSinceGrowth == 0 && c.nightsPerGrowth >= 1
    requires v.curLife - c.nightsPerGrowth >= MinLife
    ensures forall k: nat :: k < c.nightsPerGrowth ==> Nights(c, v, k).stage == v.stage
    ensures Nights(c, v, c.nightsPerGrowth).stage == NextStage(v.stage)
    ensures Nights(c, v, c.nightsPerGrowth).nightsSinceGrowth == 0
  {
    forall k: nat | k < c.nightsPerGrowth
      ensures Nights(c, v, k).stage == v.stage
    {
      QuietNights(c, v, k);
    }
    QuietNights(c, v, c.nightsPerGrowth - 1);
  }

  /** A plant object with the source's fields. */
  class Plant {
    var nightsOld: int
    var nightsSinceGrowth: int
    var curLife: int
    var canBeWatered: bool
    var plantState: Stage
    var initialState: Stage
    /** Whether the water-drop child object is active. */
    var waterDropShown: bool

    var itemGrownID: int
    var nightsPerGrowth: int
    var maxLife: int
    var isRepickable: bool

    function Settings(): Config
      reads this
    {
      Config(itemGrownID, nightsPerGrowth, maxLife, isRepickable)
    }

    function View(): PlantView
      reads this
    {
      PlantView(plantState, curLife, nightsSinceGrowth, nightsOld, canBeWatered, waterDropShown)
    }

    /** The invariant established by Start and kept by every operation. */
    ghost predicate Valid()
      reads this
    {
      nightsPerGrowth != 0 && maxLife != 0 && Consistent(Settings(), View())
    }

    /** A freshly instantiated prefab, before Start: every other field has its default value. */
    constructor (template: Config)
      ensures Settings() == template
      ensures initialState == Seed
      ensures View() == PlantView(Seed, 0, 0, 0, false, false)
    {
      itemGrownID := template.itemGrownID;
      nightsPerGrowth := template.nightsPerGrowth;
      maxLife := template.maxLife;
      isRepickable := template.isRepickable;
      initialState := Seed;
      plantState := Seed;
      nightsOld, nightsSinceGrowth, curLife := 0, 0, 0;
      canBeWatered, waterDropShown := false, false;
    }

    /** Fixes a zero configuration, resets the counters and enters the initial stage. */
    method Start()
      modifies this
      ensures nightsPerGrowth == Defaulted(old(nightsPerGrowth))
      ensures maxLife == Defaulted(old(maxLife))
      ensures itemGrownID == old(itemGrownID) && isRepickable == old(isRepickable)
      ensures initialState == old(initialState)
      ensures View() == Fresh(Settings(), initialState)
      ensures Valid()
    {
      if nightsPerGrowth == 0 {
        nightsPerGrowth := 1;
      }
      if maxLife == 0 {
        maxLife := 1;
      }
      nightsOld := 0;
      nightsSinceGrowth := 0;
      curLife := maxLife - 1;
      SetPlantState(initialState);
      ShowIfDry();
    }

    /** Makes Start enter Ripe instead of Seed. */
    method StartAsAdult()
      modifies this`initialState
      ensures initialState == Ripe
    {
      initialState := Ripe;
    }

    /** One night of aging: counters first, then the wither check, then growth. */
    method NightlyUpdate()
      modifies this
      ensures Settings() == old(Settings()) && initialState == old(initialState)
      ensures View() == AfterNight(Settings(), old(View()))
      ensures old(Valid()) ==> Valid()
    {
      nightsOld := nightsOld + 1;
      nightsSinceGrowth := nightsSinceGrowth + 1;
      curLife := curLife - 1;

      if plantState != Withered {
        if curLife < MinLife {
          SetPlantState(Withered);
          return;
        }
        ShowIfDry();
        if nightsSinceGrowth >= nightsPerGrowth {
          Grow();
        }
      }
    }

    /** Advances Seed and Sprout one stage and restarts the growth counter. */
    method Grow()
      modifies this
      ensures Settings() == old(Settings()) && initialState == old(initialState)
      ensures old(plantState) == Seed || old(plantState) == Sprout ==>
                View() == Staged(Settings(), old(View()).(nightsSinceGrowth := 0), NextStage(old(plantState)))
      ensures old(plantState) == Ripe || old(plantState) == Withered ==> View() == old(View())
    {
      var nextState: Stage;
      if plantState == Ripe || plantState == Withered {
        return;
      } else if plantState == Seed {
        nextState := Sprout;
      } else {
        nextState := Ripe;
      }
      nightsSinceGrowth := 0;
      SetPlantState(nextState);
    }

    method SetPlantState(newState: Stage)
      modifies this
      ensures Settings() == old(Settings()) && initialState == old(initialState)
      ensures View() == Staged(Settings(), old(View()), newState)
    {
      plantState := newState;
      if newState == Withered || (newState == Ripe && !isRepickable) {
        canBeWatered := false;
        ShowIfDry();
      } else {
        canBeWatered := true;
      }
    }

    method ShowIfDry()
      modifies this`waterDropShown
      ensures View() == ShowDry(old(View()))
    {
      waterDropShown := canBeWatered && curLife <= MinLife;
    }

    /** Returns the grown item; a repickable plant goes back to Sprout. */
    method PickFruit() returns (id: int)
      modifies this
      ensures id == itemGrownID
      ensures Settings() == old(Settings()) && initialState == old(initialState)
      ensures View() == Picked(Settings(), old(View()))
      ensures old(Valid()) ==> Valid()
    {
      if isRepickable {
        SetPlantState(Sprout);
        ShowIfDry();
      }
      id := itemGrownID;
    }

    /** Restores the life counter to its maximum. */
    method Water()
      modifies this
      ensures Settings() == old(Settings()) && initialState == old(initialState)
      ensures View() == Watered(Settings(), old(View()))
      ensures old(Valid()) ==> Valid()
    {
      curLife := maxLife;
      ShowIfDry();
    }

    predicate IsWithered()
      reads this
      ensures Valid() && IsWithered() ==> !canBeWatered && !waterDropShown
    {
      plantState == Withered
    }

    predicate IsRipe()
      reads this
      ensures Valid() && IsRipe() ==> (canBeWatered <==> isRepickable)
    {
      plantState == Ripe
    }
  }
}
