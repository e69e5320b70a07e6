/** The game configuration constants the core reads (game.config.js). */
module Config {
  import opened Common

  /** RULES.CATCH_DISTANCE: planar distance at which the chase turns into a fight. */
  const CATCH_DISTANCE: real := 100.0
  /** RULES.SCORE_PER_GAME: points for a won fight. */
  const SCORE_PER_GAME: int := 10
  /** CHARACTER.ATTACK_COUNT: hits needed to finish a fight. */
  const ATTACK_COUNT: int := 15
  /** CHARACTER.MOVE_SPEED: the initial speed of every character. */
  const MOVE_SPEED: real := 5.0
  /** The ceiling of a character's dash energy (a literal in Character.js and GameManager.js). */
  const MAX_DASH_ENERGY: real := 100.0

  /** ADS.MAX_ADS: live ad assignments the scene keeps at once. */
  const MAX_ADS: nat := 8
  /** ADS.MIN_DISPLAY_TIME, in seconds. */
  const MIN_DISPLAY_TIME: int := 10
  /** ADS.ROTATION_INTERVAL, in milliseconds. */
  const ROTATION_INTERVAL: int := 30000

  datatype AdSize = AdSize(width: real, height: real)

  /** One entry of SCENE.TYPES (the display name and description are left out). */
  datatype SceneType = SceneType(
    id: string,
    buildingCount: nat,
    buildingSpacing: real,
    maxBuildingHeight: real,
    minBuildingHeight: real,
    adPositions: nat,
    adSize: AdSize)

  const SCENE_TYPES: seq<SceneType> := [
    SceneType("city", 20, 30.0, 100.0, 30.0, 8, AdSize(10.0, 15.0)),
    SceneType("suburb", 15, 40.0, 40.0, 15.0, 5, AdSize(8.0, 12.0)),
    SceneType("park", 10, 50.0, 25.0, 10.0, 3, AdSize(6.0, 10.0))
  ]

  /** One entry of ADS.SPOT_ADS, the content cycled through every ad spot. */
  datatype SpotAd = SpotAd(id: string, content: string)

  const SPOT_ADS: seq<SpotAd> := [
    SpotAd("ad1", "ad_content_1.png"),
    SpotAd("ad2", "ad_content_2.png"),
    SpotAd("ad3", "ad_content_3.png")
  ]

  /** A scene type the layout generator can work with. */
  predicate WellFormed(t: SceneType) {
    t.buildingCount > 0 && t.buildingSpacing > 0.0 && t.minBuildingHeight < t.maxBuildingHeight
  }

  /** `Array.prototype.find` by id: the first entry whose id matches. */
  function FindById(types: seq<SceneType>, id: string): (r: Option<SceneType>)
    ensures r.Some? <==> exists i :: 0 <= i < |types| && types[i].id == id
    ensures r.Some? ==> r.value in types && r.value.id == id
    ensures r.Some? ==>
      exists i :: 0 <= i < |types| && types[i] == r.value && forall j :: 0 <= j < i ==> types[j].id != id
  {
    if types == [] then None
    else if types[0].id == id then Some(types[0])
    else
      var r := FindById(types[1..], id);
      assert forall i :: 1 <= i < |types| ==> types[i] == types[1..][i - 1];
      r
  }

  /** The configuration of a scene type, looked up as `initScene` does. */
  function FindSceneType(id: string): Option<SceneType> {
    FindById(SCENE_TYPES, id)
  }

  /** Exactly the three configured ids are known, and each configuration is usable. */
  lemma KnownSceneTypes(id: string)
    ensures FindSceneType(id).Some? <==> id == "city" || id == "suburb" || id == "park"
    ensures FindSceneType(id).Some? ==> WellFormed(FindSceneType(id).value)
  {
    assert SCENE_TYPES[0].id == "city" && SCENE_TYPES[1].id == "suburb" && SCENE_TYPES[2].id == "park";
  }
}
