/**
 * The store-driven stage: the per-frame day accumulator and camera smoothing, click picking of
 * farms and persons, and the overlay heat value.
 */
module PixiStage {
  import opened Common
  import Levels
  import Timekeeping
  import Simulations
  import Farms
  import Persons
  import Households
  import opened SimStores

  // ---------------------------------------------------------------- frame loop

  const SECONDS_PER_DAY: real := 0.6
  const FAST_FORWARD_RATE: real := 10.0
  const CAMERA_SMOOTH: real := 4.0

  /** The accumulator after a frame, and whether that frame runs a simulated day. */
  datatype FrameStep = FrameStep(accum: real, runsDay: bool)

  /**
   * The accumulator rule: while playing it grows by delta (ten times faster when fast-forwarding);
   * reaching 0.6 runs one day and resets it to 0, discarding the overshoot.
   */
  function Accumulate(accum: real, delta: real, playing: bool, fast: bool): (r: FrameStep)
    ensures !playing ==> r == FrameStep(accum, false)
    ensures r.runsDay <==>
              playing && accum + delta * (if fast then FAST_FORWARD_RATE else 1.0) >= SECONDS_PER_DAY
    ensures r.runsDay ==> r.accum == 0.0
    ensures playing && !r.runsDay ==> r.accum == accum + delta * (if fast then FAST_FORWARD_RATE else 1.0)
  {
    if playing then
      var a := accum + delta * (if fast then FAST_FORWARD_RATE else 1.0);
      if a >= SECONDS_PER_DAY then FrameStep(0.0, true) else FrameStep(a, false)
    else FrameStep(accum, false)
  }

  /** The accumulator always stays below one day's worth, and with nonnegative deltas above 0. */
  lemma AccumulateBounds(accum: real, delta: real, playing: bool, fast: bool)
    requires accum < SECONDS_PER_DAY
    ensures Accumulate(accum, delta, playing, fast).accum < SECONDS_PER_DAY
    ensures accum >= 0.0 && delta >= 0.0 ==> Accumulate(accum, delta, playing, fast).accum >= 0.0
  {
  }

  /** From a reset accumulator, a day runs in the first frame whose delta reaches the threshold. */
  lemma FastForwardRunsSooner(delta: real)
    requires 0.06 <= delta < 0.6
    ensures Accumulate(0.0, delta, true, true).runsDay
    ensures !Accumulate(0.0, delta, true, false).runsDay
  {
  }

  /** `lerp(cam.x, cam.targetX, min(1, delta * 4))` on both axes; target and zoom kept. */
  function SmoothCamera(cam: StoreCamera, delta: real): (r: StoreCamera)
    ensures r.targetX == cam.targetX && r.targetY == cam.targetY && r.userZoom == cam.userZoom
    ensures delta * CAMERA_SMOOTH >= 1.0 ==> r.x == cam.targetX && r.y == cam.targetY
    ensures delta == 0.0 ==> r == cam
  {
    var smooth := Min(1.0, delta * CAMERA_SMOOTH);
    cam.(x := Lerp(cam.x, cam.targetX, smooth), y := Lerp(cam.y, cam.targetY, smooth))
  }

  /** With delta >= 0 the smoothed position lies between the old position and the target. */
  lemma SmoothNoOvershoot(cam: StoreCamera, delta: real)
    requires delta >= 0.0
    ensures Min(cam.x, cam.targetX) <= SmoothCamera(cam, delta).x <= Max(cam.x, cam.targetX)
    ensures Min(cam.y, cam.targetY) <= SmoothCamera(cam, delta).y <= Max(cam.y, cam.targetY)
  {
    var smooth := Min(1.0, delta * CAMERA_SMOOTH);
    LerpBetween(cam.x, cam.targetX, smooth);
    LerpBetween(cam.y, cam.targetY, smooth);
  }

  class WorldStage {
    const store: SimStore
    /** `dayAccumRef.current`. */
    var dayAccum: real

    predicate Valid()
      reads this, store, store.time, store.sim
    {
      store.Valid() && dayAccum < SECONDS_PER_DAY
    }

    constructor (store: SimStore)
      requires store.Valid()
      ensures Valid() && this.store == store && dayAccum == 0.0
    {
      this.store := store;
      dayAccum := 0.0;
    }

    /**
     * One animation frame: the accumulator rule, at most one simulated day (the clock's step,
     * then the tick in the new day's era), and the camera smoothed towards its target.
     */
    method Frame(delta: real, draws: seq<Persons.DayDraws>) returns (ranDay: bool)
      requires Valid() && |draws| == |store.sim.persons|
      modifies this, store, store.time, store.sim`metrics, store.sim.farms, store.sim.persons, store.sim.households
      ensures Valid()
      ensures var step := Accumulate(old(dayAccum), delta, old(store.view.playing), old(store.view.fastForward));
              dayAccum == step.accum && ranDay == step.runsDay
      ensures ranDay ==>
                && store.time.currentDate == old(store.time.currentDate) + 1
                && store.sim.Value()
                   == Simulations.TickSpec(old(store.sim.Value()), store.time.CurrentEra().policies,
                                           store.time.CurrentYear(), draws)
      ensures !ranDay ==>
                store.time.currentDate == old(store.time.currentDate) && store.sim.Value() == old(store.sim.Value())
      ensures store.view == old(store.view).(camera := SmoothCamera(old(store.view.camera), delta))
      ensures store.initialized == old(store.initialized)
    {
      StageApart(this);
      ranDay := Tally(delta);
      StoreFrame(store, ranDay, delta, draws);
    }

    /** The accumulator half of a frame: whether this frame's delta completes a day. */
    method Tally(delta: real) returns (runsDay: bool)
      requires Valid()
      modifies this`dayAccum
      ensures Valid()
      ensures var step := Accumulate(old(dayAccum), delta, store.view.playing, store.view.fastForward);
              dayAccum == step.accum && runsDay == step.runsDay
    {
      AccumulateBounds(dayAccum, delta, store.view.playing, store.view.fastForward);
      runsDay := false;
      if store.view.playing {
        dayAccum := dayAccum + delta * (if store.view.fastForward then FAST_FORWARD_RATE else 1.0);
        if dayAccum >= SECONDS_PER_DAY {
          dayAccum := 0.0;
          runsDay := true;
        }
      }
    }
  }

  /** The stage is none of the objects its store owns. */
  lemma StageApart(stage: WorldStage)
    ensures stage as object != stage.store && stage as object != stage.store.time && stage as object != stage.store.sim
    ensures Outside(stage, stage.store.sim.farms) && Outside(stage, stage.store.sim.persons)
    ensures Outside(stage, stage.store.sim.households)
  {
  }

  /** The store's part of a frame: the day when one is due, then the camera. */
  method StoreFrame(store: SimStore, due: bool, delta: real, draws: seq<Persons.DayDraws>)
    requires store.Valid() && |draws| == |store.sim.persons|
    modifies store, store.time, store.sim`metrics, store.sim.farms, store.sim.persons, store.sim.households
    ensures store.Valid() && store.time == old(store.time) && store.sim == old(store.sim)
    ensures due ==>
              && store.time.currentDate == old(store.time.currentDate) + 1
              && store.sim.Value()
                 == Simulations.TickSpec(old(store.sim.Value()), store.time.CurrentEra().policies,
                                         store.time.CurrentYear(), draws)
    ensures !due ==>
              store.time.currentDate == old(store.time.currentDate) && store.sim.Value() == old(store.sim.Value())
    ensures store.view == old(store.view).(camera := SmoothCamera(old(store.view.camera), delta))
    ensures store.initialized == old(store.initialized)
  {
    DayIf(store, due, draws);
    SmoothStoreCamera(store, delta);
  }

  /** The simulation half of a frame: a day on the clock and in the simulation when one is due. */
  method DayIf(store: SimStore, due: bool, draws: seq<Persons.DayDraws>)
    requires store.Valid() && |draws| == |store.sim.persons|
    modifies store.time, store.sim`metrics, store.sim.farms, store.sim.persons, store.sim.households
    ensures store.Valid() && unchanged(store)
    ensures due ==>
              && store.time.currentDate == old(store.time.currentDate) + 1
              && store.sim.Value()
                 == Simulations.TickSpec(old(store.sim.Value()), store.time.CurrentEra().policies,
                                         store.time.CurrentYear(), draws)
    ensures !due ==>
              store.time.currentDate == old(store.time.currentDate) && store.sim.Value() == old(store.sim.Value())
  {
    StoreApart(store, store.time, store.sim);
    if due {
      store.AdvanceDay(draws);
    }
  }

  /** The camera half of a frame, which leaves the clock and the simulation as they are. */
  method SmoothStoreCamera(store: SimStore, delta: real)
    requires store.Valid()
    modifies store
    ensures store.Valid() && store.time == old(store.time) && store.sim == old(store.sim)
    ensures store.view == old(store.view).(camera := SmoothCamera(old(store.view.camera), delta))
    ensures unchanged(store.time) && store.sim.Value() == old(store.sim.Value())
    ensures store.initialized == old(store.initialized)
  {
    StoreApart(store, store.time, store.sim);
    label L0:
    var cam := store.view.camera;
    store.SetCamera(SmoothCamera(cam, delta));
    Farms.ValuesKept@L0(store.sim.farms);
    Persons.ValuesKept@L0(store.sim.persons);
    Households.ValuesKept@L0(store.sim.households);
  }

  // ---------------------------------------------------------------- picking

  /** Screen pixels per world unit at the current level. */
  function StageScale(currentLevel: string, cam: StoreCamera): real
    requires currentLevel in Levels.LEVELS
  {
    Levels.LEVELS[currentLevel].scale * cam.userZoom
  }

  /** In a valid view the scale is positive, so the click conversion is defined. */
  lemma StageScalePositive(v: View)
    requires ViewValid(v)
    ensures v.currentLevel in Levels.LEVELS && StageScale(v.currentLevel, v.camera) > 0.0
  {
    Levels.LevelTableShape();
    Levels.ScaleDecreasesWithOrder();
  }

  /** `worldToScreen(wx, wy)` of the stage. */
  function WorldToScreen(scale: real, cam: StoreCamera, wx: real, wy: real, width: real, height: real): (real, real) {
    ((wx - cam.x) * scale + width / 2.0, (wy - cam.y) * scale + height / 2.0)
  }

  /** The click handler's conversion from screen to world coordinates. */
  function ClickToWorld(scale: real, cam: StoreCamera, sx: real, sy: real, width: real, height: real): (r: (real, real))
    requires scale != 0.0
    ensures sx == width / 2.0 ==> r.0 == cam.x
    ensures sy == height / 2.0 ==> r.1 == cam.y
  {
    ((sx - width / 2.0) / scale + cam.x, (sy - height / 2.0) / scale + cam.y)
  }

  /** Converting a click to the world and drawing that point lands on the click. */
  lemma ClickRoundTrip(scale: real, cam: StoreCamera, sx: real, sy: real, width: real, height: real)
    requires scale != 0.0
    ensures var w := ClickToWorld(scale, cam, sx, sy, width, height);
            WorldToScreen(scale, cam, w.0, w.1, width, height).0 == sx
    ensures var w := ClickToWorld(scale, cam, sx, sy, width, height);
            WorldToScreen(scale, cam, w.0, w.1, width, height).1 == sy
  {
    var w := ClickToWorld(scale, cam, sx, sy, width, height);
    assert (w.0 - cam.x) * scale == sx - width / 2.0;
    assert (w.1 - cam.y) * scale == sy - height / 2.0;
  }

  /** A drawn world point, clicked, converts back to itself. */
  lemma DrawnPointRoundTrip(scale: real, cam: StoreCamera, wx: real, wy: real, width: real, height: real)
    requires scale != 0.0
    ensures var s := WorldToScreen(scale, cam, wx, wy, width, height);
            ClickToWorld(scale, cam, s.0, s.1, width, height).0 == wx
    ensures var s := WorldToScreen(scale, cam, wx, wy, width, height);
            ClickToWorld(scale, cam, s.0, s.1, width, height).1 == wy
  {
    assert (wx - cam.x) * scale / scale == wx - cam.x;
    assert (wy - cam.y) * scale / scale == wy - cam.y;
  }

  const FARM_PICK_RADIUS: real := 30.0
  const PERSON_PICK_RADIUS: real := 18.0

  function FarmDist2(f: Farms.FarmV, wx: real, wy: real): real {
    (f.x - wx) * (f.x - wx) + (f.y - wy) * (f.y - wy)
  }

  /** `farms.find(f => dist < 30)` as an index: the first farm in list order that close, or -1. */
  function FirstFarmWithin(fs: seq<Farms.FarmV>, wx: real, wy: real): (r: int)
    ensures -1 <= r < |fs|
    ensures r >= 0 ==> FarmDist2(fs[r], wx, wy) < FARM_PICK_RADIUS * FARM_PICK_RADIUS
    ensures r >= 0 ==> forall k :: 0 <= k < r ==> FarmDist2(fs[k], wx, wy) >= FARM_PICK_RADIUS * FARM_PICK_RADIUS
    ensures r == -1 <==> forall k :: 0 <= k < |fs| ==> FarmDist2(fs[k], wx, wy) >= FARM_PICK_RADIUS * FARM_PICK_RADIUS
  {
    if |fs| == 0 then -1
    else if FarmDist2(fs[0], wx, wy) < FARM_PICK_RADIUS * FARM_PICK_RADIUS then 0
    else
      var r := FirstFarmWithin(fs[1..], wx, wy);
      if r < 0 then -1 else r + 1
  }

  /** The person branch's test: the person's farm exists and lies within 18 of the click. */
  predicate NearOwnFarm(fs: seq<Farms.FarmV>, p: Persons.PersonV, wx: real, wy: real) {
    var i := Simulations.FindFarm(fs, p.farmId);
    i >= 0 && FarmDist2(fs[i], wx, wy) < PERSON_PICK_RADIUS * PERSON_PICK_RADIUS
  }

  /** `persons.find(...)` as an index: the first person near its own farm, or -1. */
  function FirstPersonNear(fs: seq<Farms.FarmV>, ps: seq<Persons.PersonV>, wx: real, wy: real): (r: int)
    ensures -1 <= r < |ps|
    ensures r >= 0 ==> NearOwnFarm(fs, ps[r], wx, wy)
    ensures r == -1 <==> forall k :: 0 <= k < |ps| ==> !NearOwnFarm(fs, ps[k], wx, wy)
  {
    if |ps| == 0 then -1
    else if NearOwnFarm(fs, ps[0], wx, wy) then 0
    else
      var r := FirstPersonNear(fs, ps[1..], wx, wy);
      if r < 0 then -1 else r + 1
  }

  /** What a stage click does: the new selection and the camera to store. */
  datatype ClickResult = ClickResult(selection: Option<Selection>, camera: StoreCamera)

  /**
   * `handleStageClick` after the conversion to world coordinates: the first farm within 30 is
   * selected and the camera targets it; otherwise, at the house level, the first person whose
   * farm is within 18; otherwise nothing.
   */
  function StageClick(fs: seq<Farms.FarmV>, ps: seq<Persons.PersonV>, currentLevel: string,
                      cam: StoreCamera, wx: real, wy: real): (r: ClickResult)
    ensures FirstFarmWithin(fs, wx, wy) >= 0 ==>
              var f := fs[FirstFarmWithin(fs, wx, wy)];
              r == ClickResult(Some(FarmSelection(f.id)), cam.(targetX := f.x, targetY := f.y))
    ensures r.selection.None? ==> r.camera == cam
  {
    var i := FirstFarmWithin(fs, wx, wy);
    if i >= 0 then
      ClickResult(Some(FarmSelection(fs[i].id)), cam.(targetX := fs[i].x, targetY := fs[i].y))
    else if currentLevel == "house" then
      var k := FirstPersonNear(fs, ps, wx, wy);
      if k >= 0 then ClickResult(Some(PersonSelection(ps[k].id)), cam) else ClickResult(None, cam)
    else ClickResult(None, cam)
  }

  /**
   * A person could only be picked through a farm within 18, which is also within 30, so the
   * farm branch always answers first: no click selects a person.
   */
  lemma {:induction false} NoPersonSelection(fs: seq<Farms.FarmV>, ps: seq<Persons.PersonV>, currentLevel: string,
                                             cam: StoreCamera, wx: real, wy: real)
    ensures !StageClick(fs, ps, currentLevel, cam, wx, wy).selection.Some?
            || StageClick(fs, ps, currentLevel, cam, wx, wy).selection.value.FarmSelection?
  {
    if FirstFarmWithin(fs, wx, wy) == -1 {
      forall k | 0 <= k < |ps|
        ensures !NearOwnFarm(fs, ps[k], wx, wy)
      {
        var i := Simulations.FindFarm(fs, ps[k].farmId);
        if i >= 0 {
          assert FarmDist2(fs[i], wx, wy) >= FARM_PICK_RADIUS * FARM_PICK_RADIUS;
        }
      }
    }
  }

  /** The click is nothing when no farm lies within 30. */
  lemma NothingWithoutNearbyFarm(fs: seq<Farms.FarmV>, ps: seq<Persons.PersonV>, currentLevel: string,
                                 cam: StoreCamera, wx: real, wy: real)
    requires forall k :: 0 <= k < |fs| ==> FarmDist2(fs[k], wx, wy) >= FARM_PICK_RADIUS * FARM_PICK_RADIUS
    ensures StageClick(fs, ps, currentLevel, cam, wx, wy) == ClickResult(None, cam)
  {
    NoPersonSelection(fs, ps, currentLevel, cam, wx, wy);
  }

  // ---------------------------------------------------------------- overlay

  function Clamp01(v: real): (r: real)
    ensures 0.0 <= r <= 1.0
    ensures 0.0 <= v <= 1.0 ==> r == v
    ensures v < 0.0 ==> r == 0.0
    ensures v > 1.0 ==> r == 1.0
  {
    Min(1.0, Max(0.0, v))
  }

  /** The raw overlay reading for a farm, before clamping; none when no overlay is shown. */
  function RawOverlay(overlay: Overlay, f: Farms.FarmV, ps: seq<Persons.PersonV>): (r: Option<real>)
    ensures r.None? <==> overlay == NoOverlay
    ensures overlay == GrainOverlay && |f.yieldHistory| == 0 ==> r == Some(0.0)
  {
    match overlay
    case NoOverlay => None
    case GrainOverlay =>
      Some((if |f.yieldHistory| > 0 then f.yieldHistory[|f.yieldHistory| - 1] else 0.0) / 100.0)
    case MoraleOverlay => Some(Persons.MoraleAvg(Persons.Occupants(ps, f.id)))
    case FamineRiskOverlay => Some(f.riskFamine)
  }

  /** The heat value a farm is drawn with: the raw reading clamped into [0,1]. */
  function OverlayValue(overlay: Overlay, f: Farms.FarmV, ps: seq<Persons.PersonV>): (r: Option<real>)
    ensures r.None? <==> overlay == NoOverlay
    ensures r.Some? ==> 0.0 <= r.value <= 1.0
    ensures r.Some? && 0.0 <= RawOverlay(overlay, f, ps).value <= 1.0 ==> r.value == RawOverlay(overlay, f, ps).value
  {
    match RawOverlay(overlay, f, ps)
    case None => None
    case Some(v) => Some(Clamp01(v))
  }

  /** With the simulation's invariants the morale and famine overlays need no clamping. */
  lemma OverlayUnclamped(overlay: Overlay, f: Farms.FarmV, ps: seq<Persons.PersonV>)
    requires overlay == MoraleOverlay || overlay == FamineRiskOverlay
    requires 0.0 <= f.riskFamine <= 1.0
    requires forall k :: 0 <= k < |ps| ==> 0.0 <= ps[k].morale <= 1.0
    ensures OverlayValue(overlay, f, ps) == RawOverlay(overlay, f, ps)
  {
    if overlay == MoraleOverlay {
      var occ := Persons.Occupants(ps, f.id);
      forall k | 0 <= k < |occ|
        ensures 0.0 <= occ[k].morale <= 1.0
      {
        assert occ[k] in occ;
      }
      Persons.MoraleAvgInUnit(occ);
    }
  }
}
