/** The store's level table: six zoom depths keyed by id, and their order. */
module Levels {

  datatype LevelInfo = LevelInfo(scale: real, order: nat, name: string)

  const LEVEL_SEQUENCE: seq<string> := ["house", "district", "village", "state", "country", "world"]

  const LEVELS: map<string, LevelInfo> := map[
    "house" := LevelInfo(1.2, 0, "House"),
    "district" := LevelInfo(0.8, 1, "District"),
    "village" := LevelInfo(0.55, 2, "Village"),
    "state" := LevelInfo(0.35, 3, "State"),
    "country" := LevelInfo(0.2, 4, "Country"),
    "world" := LevelInfo(0.08, 5, "World")
  ]

  lemma LevelTableShape()
    ensures |LEVEL_SEQUENCE| == 6
    ensures forall i, j :: 0 <= i < j < |LEVEL_SEQUENCE| ==> LEVEL_SEQUENCE[i] != LEVEL_SEQUENCE[j]
    ensures LEVELS.Keys == set id | id in LEVEL_SEQUENCE
    ensures forall i :: 0 <= i < |LEVEL_SEQUENCE| ==> LEVELS[LEVEL_SEQUENCE[i]].order == i
  {
    assert LEVELS.Keys == {"house", "district", "village", "state", "country", "world"};
  }

  /** Zooming out (a higher order) always means a strictly smaller scale: house 1.2 down to world 0.08. */
  lemma ScaleDecreasesWithOrder()
    ensures forall a, b :: a in LEVELS && b in LEVELS && LEVELS[a].order < LEVELS[b].order ==>
              LEVELS[a].scale > LEVELS[b].scale
    ensures LEVELS["house"].scale == 1.2 && LEVELS["world"].scale == 0.08
    ensures forall id :: id in LEVELS ==> LEVELS[id].scale > 0.0
  {
    assert LEVELS.Keys == {"house", "district", "village", "state", "country", "world"};
  }
}
