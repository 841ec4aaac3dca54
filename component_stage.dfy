/**
 * The level-manager stage: the keyboard bindings that request zoom levels, and click picking
 * of the nearest entity of the target level.
 */
module ComponentStage {
  import opened Common
  import opened LevelManagement

  // ---------------------------------------------------------------- keyboard

  /** JavaScript `a <= b` on strings: lexicographic order of the characters. */
  predicate StrLe(a: string, b: string) {
    if |a| == 0 then true
    else if |b| == 0 then false
    else if a[0] != b[0] then a[0] < b[0]
    else StrLe(a[1..], b[1..])
  }

  predicate IsDigit(c: char) { '0' <= c <= '9' }

  /** `parseInt(s)` for a string that starts with a digit: the value of its leading digits. */
  function LeadingNumber(s: string, acc: nat): nat {
    if |s| == 0 || !IsDigit(s[0]) then acc
    else LeadingNumber(s[1..], acc * 10 + (s[0] as int - '0' as int))
  }

  /** What a key press does: request a level index, clear the selection, or nothing. */
  datatype KeyAction = RequestIndex(index: int) | ClearSelection | NoAction

  /** The `keydown` handler's branches, given the manager's target index and level count. */
  function KeyActionOf(key: string, targetIndex: int, levelCount: int): (r: KeyAction)
    ensures r == ClearSelection <==> key == "Escape"
    ensures r == NoAction ==> key !in ["z", "Z", "x", "X", "Escape"]
  {
    if StrLe("1", key) && StrLe(key, "6") then RequestIndex(LeadingNumber(key, 0) - 1)
    else if key == "z" || key == "Z" then RequestIndex(if targetIndex - 1 > 0 then targetIndex - 1 else 0)
    else if key == "x" || key == "X" then
      RequestIndex(if levelCount - 1 < targetIndex + 1 then levelCount - 1 else targetIndex + 1)
    else if key == "Escape" then ClearSelection
    else NoAction
  }

  /** A key in the string range "1".."6" starts with one of those digits. */
  lemma DigitRange(key: string)
    requires StrLe("1", key) && StrLe(key, "6")
    ensures |key| >= 1 && '1' <= key[0] <= '6'
  {
  }

  /**
   * The digit keys 1 to 6 request levels 0 to 5, and z and x step the target down and up
   * without leaving the list; every request from a one-character key is a valid index.
   */
  lemma {:induction false} KeyRequestsInRange(key: string, targetIndex: int, levelCount: int)
    requires levelCount == |LEVEL_TABLE| && 0 <= targetIndex < levelCount && |key| == 1
    ensures KeyActionOf(key, targetIndex, levelCount).RequestIndex? ==>
              0 <= KeyActionOf(key, targetIndex, levelCount).index < levelCount
    ensures '1' <= key[0] <= '6' ==>
              KeyActionOf(key, targetIndex, levelCount) == RequestIndex(key[0] as int - '1' as int)
  {
    if '1' <= key[0] <= '6' {
      assert StrLe("1", key) && StrLe(key, "6");
      assert key[1..] == [];
      assert LeadingNumber(key, 0) == LeadingNumber(key[1..], key[0] as int - '0' as int);
    } else if StrLe("1", key) && StrLe(key, "6") {
      DigitRange(key);
    }
  }

  /** Longer strings in the range request their leading number minus one, which is never negative. */
  lemma {:induction false} LongKeyNonnegative(key: string, targetIndex: int, levelCount: int)
    requires StrLe("1", key) && StrLe(key, "6")
    ensures KeyActionOf(key, targetIndex, levelCount).RequestIndex?
    ensures KeyActionOf(key, targetIndex, levelCount).index >= 0
  {
    DigitRange(key);
    LeadingAtLeast(key[1..], key[0] as int - '0' as int);
  }

  lemma {:induction false} LeadingAtLeast(s: string, acc: nat)
    ensures LeadingNumber(s, acc) >= acc
  {
    if |s| > 0 && IsDigit(s[0]) {
      LeadingAtLeast(s[1..], acc * 10 + (s[0] as int - '0' as int));
    }
  }

  /** `onKey(e)` on the shared level manager; the result says whether the selection is cleared. */
  method OnKey(levelManager: LevelManager, key: string) returns (clearSelection: bool)
    requires levelManager.Valid()
    modifies levelManager
    ensures levelManager.Valid()
    ensures clearSelection <==> KeyActionOf(key, old(levelManager.targetIndex), |LEVEL_TABLE|).ClearSelection?
    ensures levelManager.Value()
            == match KeyActionOf(key, old(levelManager.targetIndex), |LEVEL_TABLE|)
               case RequestIndex(i) => Request(old(levelManager.Value()), i, |LEVEL_TABLE|)
               case _ => old(levelManager.Value())
  {
    var action := KeyActionOf(key, levelManager.targetIndex, |levelManager.levels|);
    clearSelection := false;
    match action
    case RequestIndex(i) =>
      levelManager.RequestLevel(ByIndex(i));
    case ClearSelection =>
      clearSelection := true;
    case NoAction =>
  }

  // ---------------------------------------------------------------- picking

  datatype Entity = Entity(id: string, name: string, x: real, y: real)

  /** The fixture entities shown at each level. */
  const HOUSE_PERSONS: seq<Entity> := [Entity("person_1", "Alice", -30.0, 0.0), Entity("person_2", "Bob", 20.0, 10.0)]
  const DISTRICT_HOUSES: seq<Entity> := [Entity("house_main", "Main House", 0.0, 0.0)]
  const VILLAGE_DISTRICTS: seq<Entity> := [Entity("district_central", "Central District", 0.0, 0.0)]
  const STATE_VILLAGES: seq<Entity> := [Entity("village_alpha", "Alpha Village", 0.0, 0.0)]
  const COUNTRY_STATES: seq<Entity> := [Entity("state_north", "North State", 0.0, 0.0)]
  const WORLD_COUNTRIES: seq<Entity> := [Entity("country_demo", "Demo Country", 0.0, 0.0)]

  /** The `switch` on the level id; an unknown id leaves the list empty. */
  function LevelEntities(levelId: string): seq<Entity> {
    match levelId
    case "house" => HOUSE_PERSONS
    case "district" => DISTRICT_HOUSES
    case "village" => VILLAGE_DISTRICTS
    case "state" => STATE_VILLAGES
    case "country" => COUNTRY_STATES
    case "world" => WORLD_COUNTRIES
    case _ => []
  }

  const PICK_RADIUS: real := 25.0

  /** The squared distance from an entity to the query point; it orders as the distance does. */
  function Dist2(e: Entity, wx: real, wy: real): real {
    (e.x - wx) * (e.x - wx) + (e.y - wy) * (e.y - wy)
  }

  /**
   * Entity i is the pick: strictly within the radius, strictly nearer than every earlier
   * entity, and no farther than every later one.
   */
  predicate IsPick(list: seq<Entity>, wx: real, wy: real, i: int) {
    && 0 <= i < |list|
    && Dist2(list[i], wx, wy) < PICK_RADIUS * PICK_RADIUS
    && (forall j :: 0 <= j < i ==> Dist2(list[j], wx, wy) > Dist2(list[i], wx, wy))
    && (forall j :: i < j < |list| ==> Dist2(list[j], wx, wy) >= Dist2(list[i], wx, wy))
  }

  /** At most one entity is the pick. */
  lemma PickUnique(list: seq<Entity>, wx: real, wy: real, i: int, j: int)
    requires IsPick(list, wx, wy, i) && IsPick(list, wx, wy, j)
    ensures i == j
  {
  }

  /** The pick is at least as near as every entity of the list. */
  lemma PickIsNearest(list: seq<Entity>, wx: real, wy: real, i: int)
    requires IsPick(list, wx, wy, i)
    ensures forall j :: 0 <= j < |list| ==> Dist2(list[j], wx, wy) >= Dist2(list[i], wx, wy)
  {
  }

  /**
   * `pickEntity(levelId, wx, wy)`: the nearest entity of the level within radius 25, the first
   * of equally near ones, or nothing when none is that close.
   */
  method PickEntity(levelId: string, wx: real, wy: real) returns (closest: Option<Entity>)
    ensures closest.None? <==>
              forall j :: 0 <= j < |LevelEntities(levelId)| ==>
                Dist2(LevelEntities(levelId)[j], wx, wy) >= PICK_RADIUS * PICK_RADIUS
    ensures closest.Some? ==>
              exists i :: IsPick(LevelEntities(levelId), wx, wy, i) && LevelEntities(levelId)[i] == closest.value
  {
    var list := LevelEntities(levelId);
    closest := None;
    var bestDist: Option<real> := None;
    ghost var best := -1;
    var k := 0;
    while k < |list|
      invariant 0 <= k <= |list|
      invariant -1 <= best < k
      invariant best == -1 <==> closest.None?
      invariant bestDist.Some? <==> closest.Some?
      invariant best == -1 ==> forall j :: 0 <= j < k ==> Dist2(list[j], wx, wy) >= PICK_RADIUS * PICK_RADIUS
      invariant best >= 0 ==>
                  && closest == Some(list[best]) && bestDist == Some(Dist2(list[best], wx, wy))
                  && Dist2(list[best], wx, wy) < PICK_RADIUS * PICK_RADIUS
                  && (forall j :: 0 <= j < best ==> Dist2(list[j], wx, wy) > Dist2(list[best], wx, wy))
                  && (forall j :: best < j < k ==> Dist2(list[j], wx, wy) >= Dist2(list[best], wx, wy))
    {
      var e := list[k];
      var dist := Dist2(e, wx, wy);
      if dist < PICK_RADIUS * PICK_RADIUS && (bestDist.None? || dist < bestDist.value) {
        bestDist := Some(dist);
        closest := Some(e);
        best := k;
      }
      k := k + 1;
    }
    if best >= 0 {
      assert IsPick(list, wx, wy, best);
    }
  }

  /** Clicking exactly on an entity of a one-entity level selects that entity. */
  lemma PickOnEntity(levelId: string, e: Entity)
    requires LevelEntities(levelId) == [e]
    ensures IsPick(LevelEntities(levelId), e.x, e.y, 0)
  {
  }
}
