/**
 * The application store: the clock and the simulation it drives, and the view state the UI
 * reads: zoom level, overlay, selection, play controls and the camera.
 */
module SimStores {
  import opened Common
  import Levels
  import Eras
  import Timekeeping
  import Simulations
  import InitialEntities
  import Farms
  import Persons
  import Households

  datatype StoreCamera = StoreCamera(x: real, y: real, targetX: real, targetY: real, userZoom: real)

  datatype Overlay = NoOverlay | GrainOverlay | MoraleOverlay | FamineRiskOverlay

  datatype Selection = FarmSelection(farmId: nat) | PersonSelection(personId: nat)

  /** The store's plain fields, which its actions replace as a whole. */
  datatype View = View(targetLevel: string, currentLevel: string, overlay: Overlay,
                       selection: Option<Selection>, playing: bool, fastForward: bool,
                       camera: StoreCamera)

  const INITIAL_VIEW: View :=
    View("house", "house", NoOverlay, None, true, false, StoreCamera(0.0, 0.0, 0.0, 0.0, 1.0))

  const MIN_ZOOM: real := 0.3
  const MAX_ZOOM: real := 4.0

  /** Both levels are the same known level, and the zoom lies within its band. */
  predicate ViewValid(v: View) {
    && v.targetLevel in Levels.LEVEL_SEQUENCE
    && v.currentLevel == v.targetLevel
    && MIN_ZOOM <= v.camera.userZoom <= MAX_ZOOM
  }

  lemma InitialViewValid()
    ensures ViewValid(INITIAL_VIEW)
  {
  }

  /** `setLevel(id)`: an immediate switch of both levels; an unknown id is ignored. */
  function SetLevel(v: View, id: string): (r: View)
    ensures r.(targetLevel := v.targetLevel, currentLevel := v.currentLevel) == v
    ensures id in Levels.LEVEL_SEQUENCE ==> r.targetLevel == id && r.currentLevel == id
    ensures id !in Levels.LEVEL_SEQUENCE ==> r == v
    ensures ViewValid(v) ==> ViewValid(r)
  {
    if id !in Levels.LEVEL_SEQUENCE then v
    else if v.targetLevel == id && v.currentLevel == id then v
    else v.(targetLevel := id, currentLevel := id)
  }

  /** `centerCamera()`: only the camera target moves, to the origin. */
  function CenterCamera(v: View): (r: View)
    ensures r.camera.targetX == 0.0 && r.camera.targetY == 0.0
    ensures r.camera.(targetX := v.camera.targetX, targetY := v.camera.targetY) == v.camera
    ensures r.(camera := v.camera) == v
  {
    v.(camera := v.camera.(targetX := 0.0, targetY := 0.0))
  }

  /** `nudgeCamera(dx, dy)`: the target moves against the drag by d / userZoom, with no level scale. */
  function NudgeCamera(v: View, dx: real, dy: real): (r: View)
    requires v.camera.userZoom != 0.0
    ensures (v.camera.targetX - r.camera.targetX) * v.camera.userZoom == dx
    ensures (v.camera.targetY - r.camera.targetY) * v.camera.userZoom == dy
    ensures r.camera.(targetX := v.camera.targetX, targetY := v.camera.targetY) == v.camera
    ensures r.(camera := v.camera) == v
  {
    var scale := 1.0;
    v.(camera := v.camera.(targetX := v.camera.targetX - dx / (scale * v.camera.userZoom),
                           targetY := v.camera.targetY - dy / (scale * v.camera.userZoom)))
  }

  /** `adjustZoom(factor)`: the zoom is scaled and clamped into [0.3, 4], whatever the factor. */
  function AdjustZoom(v: View, factor: real): (r: View)
    ensures MIN_ZOOM <= r.camera.userZoom <= MAX_ZOOM
    ensures MIN_ZOOM <= v.camera.userZoom * factor <= MAX_ZOOM ==> r.camera.userZoom == v.camera.userZoom * factor
    ensures v.camera.userZoom * factor < MIN_ZOOM ==> r.camera.userZoom == MIN_ZOOM
    ensures v.camera.userZoom * factor > MAX_ZOOM ==> r.camera.userZoom == MAX_ZOOM
    ensures r.camera.(userZoom := v.camera.userZoom) == v.camera
    ensures r.(camera := v.camera) == v
  {
    v.(camera := v.camera.(userZoom := Min(MAX_ZOOM, Max(MIN_ZOOM, v.camera.userZoom * factor))))
  }

  /** `togglePlay()`. */
  function TogglePlay(v: View): (r: View)
    ensures r.playing == !v.playing && r.(playing := v.playing) == v
  {
    v.(playing := !v.playing)
  }

  /** `toggleFast()`. */
  function ToggleFast(v: View): (r: View)
    ensures r.fastForward == !v.fastForward && r.(fastForward := v.fastForward) == v
  {
    v.(fastForward := !v.fastForward)
  }

  /** Toggling twice gives the view back. */
  lemma TogglesInvolutive(v: View)
    ensures TogglePlay(TogglePlay(v)) == v
    ensures ToggleFast(ToggleFast(v)) == v
  {
  }

  /** Every view action keeps the view valid. */
  lemma ActionsKeepViewValid(v: View, id: string, dx: real, dy: real, factor: real)
    requires ViewValid(v)
    ensures ViewValid(SetLevel(v, id)) && ViewValid(CenterCamera(v)) && ViewValid(NudgeCamera(v, dx, dy))
    ensures ViewValid(AdjustZoom(v, factor)) && ViewValid(TogglePlay(v)) && ViewValid(ToggleFast(v))
  {
  }

  /** The player has three objects: the store and the two it owns. */
  lemma StoreApart(store: SimStore, time: Timekeeping.TimeController, sim: Simulations.Simulation)
    ensures store as object != time && store as object != sim && time as object != sim
    ensures Outside(store, sim.farms) && Outside(store, sim.persons) && Outside(store, sim.households)
  {
  }

  /** The clock is none of the simulation's entities. */
  lemma ClockApart(time: Timekeeping.TimeController, sim: Simulations.Simulation)
    ensures Outside(time, sim.farms) && Outside(time, sim.persons) && Outside(time, sim.households)
  {
  }

  class SimStore {
    var time: Timekeeping.TimeController
    var sim: Simulations.Simulation
    var initialized: bool
    var view: View

    predicate Valid()
      reads this, time, sim
    {
      time.Valid() && sim.Valid() && ViewValid(view)
    }

    /** A fresh clock on 1905-01-01, an empty simulation whose `time` is unset, the initial view. */
    constructor ()
      ensures Valid() && fresh(time) && fresh(sim) && !initialized && view == INITIAL_VIEW
      ensures time.currentDate == 0 && time.currentEraIndex == 0
      ensures sim.farms == [] && sim.persons == [] && sim.households == [] && sim.time == null
    {
      time := new Timekeeping.TimeController();
      sim := new Simulations.Simulation();
      initialized := false;
      view := INITIAL_VIEW;
    }

    /**
     * `initialize()`: on the first call, the starting population is built and handed to the
     * simulation without a clock; any later call changes nothing.
     */
    method Initialize(firstFarmId: nat, firstPersonId: nat, firstHouseholdId: nat,
                      fd: seq<Farms.FarmDraws>, pd: seq<Persons.PersonDraws>, fr: seq<real>)
      requires Valid()
      requires |fd| == InitialEntities.FARM_COUNT && |pd| == InitialEntities.PERSON_COUNT
      requires |fr| == InitialEntities.PERSON_COUNT && forall k :: 0 <= k < |fr| ==> IsDraw(fr[k])
      modifies this, sim
      ensures Valid() && initialized && time == old(time) && sim == old(sim) && view == old(view)
      ensures old(initialized) ==> unchanged(this) && unchanged(sim)
      ensures !old(initialized) ==>
                && sim.time == old(sim.time) && sim.metrics == old(sim.metrics)
                && Farms.Values(sim.farms) == InitialEntities.InitialFarms(firstFarmId, fd)
                && Persons.Values(sim.persons)
                   == InitialEntities.InitialPersons(firstFarmId, firstPersonId, firstHouseholdId, pd, fr)
                && InitialEntities.Dealt(Households.Values(sim.households), firstPersonId, firstHouseholdId,
                                         InitialEntities.PERSON_COUNT)
    {
      if initialized {
        return;
      }
      StoreApart(this, time, sim);
      Populate(sim, firstFarmId, firstPersonId, firstHouseholdId, fd, pd, fr);
      initialized := true;
    }

    /** `setState({ camera })`: the camera replaced and nothing else. */
    method SetCamera(camera: StoreCamera)
      requires Valid() && MIN_ZOOM <= camera.userZoom <= MAX_ZOOM
      modifies this
      ensures Valid() && view == old(view).(camera := camera)
      ensures time == old(time) && sim == old(sim) && initialized == old(initialized)
    {
      view := view.(camera := camera);
    }

    /** `advanceDay()`: the clock steps first, then the simulation ticks in the new day's era. */
    method AdvanceDay(draws: seq<Persons.DayDraws>)
      requires Valid() && |draws| == |sim.persons|
      modifies time, sim`metrics, sim.farms, sim.persons, sim.households
      ensures Valid()
      ensures time.currentDate == old(time.currentDate) + 1
      ensures time.currentEraIndex == Timekeeping.NextEraIndex(old(time.currentEraIndex), time.currentDate)
      ensures sim.Value()
              == Simulations.TickSpec(old(sim.Value()), time.CurrentEra().policies, time.CurrentYear(), draws)
    {
      StoreApart(this, time, sim);
      var era, year := StepClock(time, sim);
      TickInEra(time, sim, era, year, draws);
    }
  }

  /** `sim.init(createInitialEntities())`: fresh entity lists, and no clock passed. */
  method Populate(sim: Simulations.Simulation, firstFarmId: nat, firstPersonId: nat, firstHouseholdId: nat,
                  fd: seq<Farms.FarmDraws>, pd: seq<Persons.PersonDraws>, fr: seq<real>)
    requires |fd| == InitialEntities.FARM_COUNT && |pd| == InitialEntities.PERSON_COUNT
    requires |fr| == InitialEntities.PERSON_COUNT && forall k :: 0 <= k < |fr| ==> IsDraw(fr[k])
    modifies sim
    ensures sim.Valid() && sim.time == old(sim.time) && sim.metrics == old(sim.metrics)
    ensures Farms.Values(sim.farms) == InitialEntities.InitialFarms(firstFarmId, fd)
    ensures Persons.Values(sim.persons)
            == InitialEntities.InitialPersons(firstFarmId, firstPersonId, firstHouseholdId, pd, fr)
    ensures InitialEntities.Dealt(Households.Values(sim.households), firstPersonId, firstHouseholdId,
                                  InitialEntities.PERSON_COUNT)
  {
    var persons, households, farms :=
      InitialEntities.CreateInitialEntities(firstFarmId, firstPersonId, firstHouseholdId, fd, pd, fr);
    label Built:
    sim.Init(persons, households, farms, null);
    Farms.ValuesKept@Built(farms);
    Persons.ValuesKept@Built(persons);
    Households.ValuesKept@Built(households);
  }

  /** The clock's step, which leaves the simulation's entities as they are. */
  method StepClock(time: Timekeeping.TimeController, sim: Simulations.Simulation)
    returns (era: Eras.Era, year: int)
    requires time.Valid()
    modifies time
    ensures time.Valid()
    ensures time.currentDate == old(time.currentDate) + 1
    ensures time.currentEraIndex == Timekeeping.NextEraIndex(old(time.currentEraIndex), time.currentDate)
    ensures era == time.CurrentEra() && year == time.CurrentYear()
    ensures sim.Value() == old(sim.Value())
  {
    ClockApart(time, sim);
    label L0:
    time.StepDay();
    Farms.ValuesKept@L0(sim.farms);
    Persons.ValuesKept@L0(sim.persons);
    Households.ValuesKept@L0(sim.households);
    era, year := time.CurrentEra(), time.CurrentYear();
  }

  /** The simulation's tick in a given era and year, which leaves the clock as it is. */
  method TickInEra(time: Timekeeping.TimeController, sim: Simulations.Simulation, era: Eras.Era, year: int,
                   draws: seq<Persons.DayDraws>)
    requires sim.Valid() && |draws| == |sim.persons|
    modifies sim`metrics, sim.farms, sim.persons, sim.households
    ensures sim.Valid() && unchanged(time)
    ensures sim.Value() == Simulations.TickSpec(old(sim.Value()), era.policies, year, draws)
  {
    ClockApart(time, sim);
    sim.DailyTick(era, year, draws);
  }

  /**
   * As written, the store never gives the simulation a clock, so once initialized the
   * collectivization policy's read of the simulation's own clock throws.
   */
  method InitializedStoreCollectivizeAsWritten(fd: seq<Farms.FarmDraws>, pd: seq<Persons.PersonDraws>, fr: seq<real>)
    returns (thrown: bool)
    requires |fd| == InitialEntities.FARM_COUNT && |pd| == InitialEntities.PERSON_COUNT
    requires |fr| == InitialEntities.PERSON_COUNT && forall k :: 0 <= k < |fr| ==> IsDraw(fr[k])
    ensures thrown
  {
    var store := new SimStore();
    store.Initialize(1, 1, 1, fd, pd, fr);
    var year;
    thrown, year := store.sim.CollectivizeYearAsWritten();
  }
}
