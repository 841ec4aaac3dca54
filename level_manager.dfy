/**
 * The view engine's zoom-level state machine: six levels, a current and a target index, and a
 * transition progress that eases from one level's scale to the next.
 */
module LevelManagement {
  import opened Common

  datatype Level = Level(id: string, name: string, scale: real)

  /** The manager's own level list; its scales differ from the store's level table. */
  const LEVEL_TABLE: seq<Level> := [
    Level("house", "House", 1.0),
    Level("district", "District", 0.5),
    Level("village", "Village", 0.25),
    Level("state", "State", 0.10),
    Level("country", "Country", 0.04),
    Level("world", "World", 0.01)
  ]

  const EASE_SPEED: real := 4.0

  /** `levels.findIndex(l => l.id === id)`: the first level with that id, or -1. */
  function FindLevel(levels: seq<Level>, id: string): (r: int)
    ensures -1 <= r < |levels|
    ensures r >= 0 ==> levels[r].id == id && forall i :: 0 <= i < r ==> levels[i].id != id
    ensures r == -1 <==> forall i :: 0 <= i < |levels| ==> levels[i].id != id
  {
    if |levels| == 0 then -1
    else if levels[0].id == id then 0
    else
      var r := FindLevel(levels[1..], id);
      if r < 0 then -1 else r + 1
  }

  /** The argument of `requestLevel`: a level index or a level id. */
  datatype LevelRef = ByIndex(index: int) | ById(id: string)

  function Resolve(levels: seq<Level>, ref: LevelRef): int {
    match ref
    case ByIndex(i) => i
    case ById(id) => FindLevel(levels, id)
  }

  /** The manager's mutable fields. */
  datatype Transition = Transition(currentIndex: int, targetIndex: int, progress: real)

  /**
   * Both indices name a level, progress never exceeds 1, and a finished transition has
   * committed its target.
   */
  predicate Coherent(s: Transition, n: nat) {
    && 0 <= s.currentIndex < n
    && 0 <= s.targetIndex < n
    && s.progress <= 1.0
    && (s.progress >= 1.0 ==> s.currentIndex == s.targetIndex)
  }

  /** `requestLevel`: a valid index other than the target starts a new transition towards it. */
  function Request(s: Transition, idx: int, n: nat): (r: Transition)
    ensures r.currentIndex == s.currentIndex
    ensures r != s <==> 0 <= idx < n && idx != s.targetIndex
    ensures r != s ==> r.targetIndex == idx && r.progress == 0.0
    ensures Coherent(s, n) ==> Coherent(r, n)
  {
    if 0 <= idx < n && idx != s.targetIndex then s.(targetIndex := idx, progress := 0.0) else s
  }

  /** `step(delta)`: an unfinished transition advances by delta times the ease speed and commits at 1. */
  function Advance(s: Transition, delta: real): (r: Transition)
    ensures r.targetIndex == s.targetIndex
    ensures s.progress >= 1.0 ==> r == s
    ensures s.progress < 1.0 && s.progress + delta * EASE_SPEED >= 1.0 ==>
              r.progress == 1.0 && r.currentIndex == s.targetIndex
    ensures s.progress < 1.0 && s.progress + delta * EASE_SPEED < 1.0 ==>
              r.currentIndex == s.currentIndex && r.progress == s.progress + delta * EASE_SPEED
  {
    if s.progress < 1.0 then
      var p := s.progress + delta * EASE_SPEED;
      if p >= 1.0 then s.(progress := 1.0, currentIndex := s.targetIndex) else s.(progress := p)
    else s
  }

  /** A step keeps the state coherent, whatever the delta. */
  lemma AdvanceCoherent(s: Transition, n: nat, delta: real)
    requires Coherent(s, n)
    ensures Coherent(Advance(s, delta), n)
  {
  }

  /** With a nonnegative delta, progress stays in [0,1] and never goes back. */
  lemma AdvanceMonotone(s: Transition, delta: real)
    requires 0.0 <= s.progress <= 1.0 && delta >= 0.0
    ensures s.progress <= Advance(s, delta).progress <= 1.0
  {
  }

  lemma CubeSign(x: real)
    ensures x >= 0.0 ==> Cube(x) >= 0.0
    ensures x < 0.0 ==> Cube(x) < 0.0
  {
    if x >= 0.0 {
      MulNonneg(x, x);
      MulNonneg(x * x, x);
    } else {
      assert x * x > 0.0;
      assert (x * x) * x < 0.0;
    }
  }

  lemma CubeMonotone(a: real, b: real)
    requires 0.0 <= a <= b
    ensures Cube(a) <= Cube(b)
    ensures a < b ==> Cube(a) < Cube(b)
  {
    MulNonneg(a, a);
    assert a * a <= a * b <= b * b;
    assert a * a * a <= b * b * a <= b * b * b;
    if a < b {
      assert b * b > 0.0;
      assert b * b * a < b * b * b;
    }
  }

  /** `easeInOutCubic(t)`: a cubic ease-in over the first half and its mirror over the second. */
  function Ease(t: real): (r: real)
    ensures t <= 0.0 ==> r <= 0.0
    ensures t >= 1.0 ==> r >= 1.0
  {
    CubeSign(t);
    CubeSign(-2.0 * t + 2.0);
    if t < 0.5 then 4.0 * Cube(t) else 1.0 - Cube(-2.0 * t + 2.0) / 2.0
  }

  lemma EaseFixedPoints()
    ensures Ease(0.0) == 0.0 && Ease(0.5) == 0.5 && Ease(1.0) == 1.0
  {
  }

  /** The ease maps [0,1] into [0,1]. */
  lemma EaseInUnit(t: real)
    requires 0.0 <= t <= 1.0
    ensures 0.0 <= Ease(t) <= 1.0
  {
    if t < 0.5 {
      CubeSign(t);
      CubeMonotone(t, 0.5);
    } else {
      CubeSign(-2.0 * t + 2.0);
      CubeMonotone(-2.0 * t + 2.0, 1.0);
    }
  }

  /** The eased value is below one half exactly while the progress is. */
  lemma EaseBelowHalf(t: real)
    ensures Ease(t) < 0.5 <==> t < 0.5
  {
    if t < 0.5 {
      if t >= 0.0 {
        CubeMonotone(t, 0.5);
      } else {
        CubeSign(t);
      }
    } else {
      var u := -2.0 * t + 2.0;
      if u >= 0.0 {
        CubeMonotone(u, 1.0);
      } else {
        CubeSign(u);
      }
    }
  }

  /** The ease never goes back on [0,1]. */
  lemma EaseMonotone(s: real, t: real)
    requires 0.0 <= s <= t <= 1.0
    ensures Ease(s) <= Ease(t)
  {
    EaseBelowHalf(s);
    EaseBelowHalf(t);
    if t < 0.5 {
      CubeMonotone(s, t);
    } else if s >= 0.5 {
      CubeMonotone(-2.0 * t + 2.0, -2.0 * s + 2.0);
    }
  }

  /** The second half mirrors the first: easing 1 - t gives 1 minus the ease of t. */
  lemma EaseSymmetric(t: real)
    ensures Ease(1.0 - t) == 1.0 - Ease(t)
  {
    CubeDouble(t);
    CubeDouble(1.0 - t);
  }

  lemma CubeDouble(x: real)
    ensures Cube(2.0 * x) == 8.0 * Cube(x)
  {
    calc {
      Cube(2.0 * x);
      (2.0 * x) * (2.0 * x) * (2.0 * x);
      { assert (2.0 * x) * (2.0 * x) == 4.0 * (x * x); }
      4.0 * (x * x) * (2.0 * x);
      8.0 * (x * x * x);
    }
  }

  /** `getInterpolatedScale()`: the target's scale once finished, otherwise the eased mix. */
  function Scale(levels: seq<Level>, s: Transition): (r: real)
    requires 0 <= s.currentIndex < |levels| && 0 <= s.targetIndex < |levels|
    ensures s.progress >= 1.0 ==> r == levels[s.targetIndex].scale
    ensures s.progress == 0.0 ==> r == levels[s.currentIndex].scale
  {
    if s.progress >= 1.0 then levels[s.targetIndex].scale
    else Lerp(levels[s.currentIndex].scale, levels[s.targetIndex].scale, Ease(s.progress))
  }

  /**
   * The interpolated scale starts at the current level's scale, ends exactly at the target's,
   * and lies between the two in between.
   */
  lemma ScaleBetween(levels: seq<Level>, s: Transition)
    requires 0 <= s.currentIndex < |levels| && 0 <= s.targetIndex < |levels|
    ensures s.progress == 0.0 ==> Scale(levels, s) == levels[s.currentIndex].scale
    ensures s.progress >= 1.0 ==> Scale(levels, s) == levels[s.targetIndex].scale
    ensures 0.0 <= s.progress ==>
              Min(levels[s.currentIndex].scale, levels[s.targetIndex].scale) <= Scale(levels, s)
              <= Max(levels[s.currentIndex].scale, levels[s.targetIndex].scale)
  {
    if 0.0 <= s.progress < 1.0 {
      EaseInUnit(s.progress);
      LerpBetween(levels[s.currentIndex].scale, levels[s.targetIndex].scale, Ease(s.progress));
    }
  }

  /** `getInterpolatedName()`: "current → target" for the first eased half of a transition. */
  function Name(levels: seq<Level>, s: Transition): (r: string)
    requires 0 <= s.currentIndex < |levels| && 0 <= s.targetIndex < |levels|
    ensures s.progress >= 1.0 ==> r == levels[s.targetIndex].name
    ensures s.progress == 0.0 ==> r == levels[s.currentIndex].name + " → " + levels[s.targetIndex].name
  {
    if s.progress >= 1.0 then levels[s.targetIndex].name
    else if Ease(s.progress) < 0.5 then levels[s.currentIndex].name + " → " + levels[s.targetIndex].name
    else levels[s.targetIndex].name
  }

  /** The label is the bare target name exactly when the transition is at least half done. */
  lemma NameShowsTarget(levels: seq<Level>, s: Transition)
    requires 0 <= s.currentIndex < |levels| && 0 <= s.targetIndex < |levels|
    ensures Name(levels, s) == levels[s.targetIndex].name <==> s.progress >= 0.5
    ensures s.progress < 0.5 ==>
              Name(levels, s) == levels[s.currentIndex].name + " → " + levels[s.targetIndex].name
  {
    EaseBelowHalf(s.progress);
    if s.progress < 0.5 {
      assert |Name(levels, s)| > |levels[s.targetIndex].name|;
    }
  }

  class LevelManager {
    const levels: seq<Level> := LEVEL_TABLE
    var currentIndex: int
    var targetIndex: int
    var transitionProgress: real
    const easeSpeed: real := EASE_SPEED

    function Value(): Transition
      reads this
    {
      Transition(currentIndex, targetIndex, transitionProgress)
    }

    predicate Valid()
      reads this
    {
      Coherent(Value(), |levels|)
    }

    /** Six levels, at the house level, with no transition under way. */
    constructor ()
      ensures Valid()
      ensures |levels| == 6 && Value() == Transition(0, 0, 1.0) && easeSpeed == 4.0
    {
      currentIndex := 0;
      targetIndex := 0;
      transitionProgress := 1.0;
    }

    function TargetLevel(): (l: Level)
      requires Valid()
      reads this
      ensures l in levels && l == LEVEL_TABLE[targetIndex]
    {
      levels[targetIndex]
    }

    method RequestLevel(ref: LevelRef)
      requires Valid()
      modifies this
      ensures Valid()
      ensures Value() == Request(old(Value()), Resolve(levels, ref), |levels|)
    {
      var idx := Resolve(levels, ref);
      if idx >= 0 && idx < |levels| && idx != targetIndex {
        targetIndex := idx;
        transitionProgress := 0.0;
      }
    }

    method Step(delta: real)
      requires Valid()
      modifies this
      ensures Valid()
      ensures Value() == Advance(old(Value()), delta)
    {
      AdvanceCoherent(Value(), |levels|, delta);
      if transitionProgress < 1.0 {
        transitionProgress := transitionProgress + delta * easeSpeed;
        if transitionProgress >= 1.0 {
          transitionProgress := 1.0;
          currentIndex := targetIndex;
        }
      }
    }

    /** `getInterpolatedScale()`. */
    function InterpolatedScale(): (r: real)
      requires Valid()
      reads this
      ensures transitionProgress >= 1.0 ==> r == levels[targetIndex].scale
      ensures transitionProgress >= 0.0 ==>
                Min(levels[currentIndex].scale, levels[targetIndex].scale) <= r
                <= Max(levels[currentIndex].scale, levels[targetIndex].scale)
    {
      ScaleBetween(levels, Value());
      Scale(levels, Value())
    }

    /** `getInterpolatedName()`. */
    function InterpolatedName(): (r: string)
      requires Valid()
      reads this
      ensures r == levels[targetIndex].name <==> transitionProgress >= 0.5
      ensures transitionProgress < 0.5 ==> r == levels[currentIndex].name + " → " + levels[targetIndex].name
    {
      NameShowsTarget(levels, Value());
      Name(levels, Value())
    }
  }
}
