/**
 * managers/SceneManager.js: the scene manager object, whose methods rebuild
 * the city layout and update the ad-slot table in place. Each method is
 * proved against the value-level definitions of SceneLayout and AdSlots.
 */
module Scene {
  import opened Common
  import opened Config
  import opened SceneLayout
  import opened AdSlots

  /** What `getSceneData` hands out. */
  datatype SceneData = SceneData(sceneType: Option<SceneType>, buildings: seq<Building>,
                                 adSpots: seq<AdSpot>, activeAds: seq<ActiveAd>)

  /** The random draws `initScene` consumes for a known scene type: one height per building, one pick per spot. */
  predicate DrawsFit(sceneType: string, heights: seq<real>, picks: seq<real>) {
    FindSceneType(sceneType).Some? ==>
      var t := FindSceneType(sceneType).value;
      |heights| == t.buildingCount && UnitDraws(picks) && |picks| == MinNat(t.adPositions, t.buildingCount)
  }

  class SceneManager {
    var currentScene: Option<SceneType>
    var buildings: seq<Building>
    var adSpots: seq<AdSpot>
    /** The `activeAds` Map, as its values in insertion order. */
    var activeAds: seq<ActiveAd>

    /** No spot holds two ads and never more than MAX_ADS are live. */
    predicate Valid()
      reads this
    {
      KeysDistinct(activeAds) && |activeAds| <= MAX_ADS
    }

    constructor()
      ensures currentScene == None && buildings == [] && adSpots == [] && activeAds == []
      ensures Valid()
    {
      currentScene := None;
      buildings := [];
      adSpots := [];
      activeAds := [];
    }

    /**
     * `initScene(sceneType)`: an unknown type is refused (the source throws)
     * and nothing changes; a known one becomes the current scene and its
     * layout is generated from the random draws `heights` and `picks`.
     */
    method InitScene(sceneType: string, heights: seq<real>, picks: seq<real>) returns (ok: bool)
      requires DrawsFit(sceneType, heights, picks)
      modifies this`currentScene, this`buildings, this`adSpots
      ensures ok <==> FindSceneType(sceneType).Some?
      ensures !ok ==> currentScene == old(currentScene) && buildings == old(buildings) && adSpots == old(adSpots)
      ensures ok ==> currentScene == FindSceneType(sceneType)
      ensures ok ==> var t := currentScene.value;
        Layout(buildings, adSpots) == GeneratedLayout(t, heights, picks)
    {
      var found := FindSceneType(sceneType);
      if found.None? {
        return false;
      }
      currentScene := found;
      GenerateBuildings(heights);
      GenerateAdSpots(picks);
      ok := true;
    }

    /** `generateBuildings`: one building per grid cell, numbered in row-major order. */
    method GenerateBuildings(heights: seq<real>)
      requires currentScene.Some? && |heights| == currentScene.value.buildingCount
      modifies this`buildings
      ensures buildings == LayoutBuildings(currentScene.value, heights)
    {
      var t := currentScene.value;
      buildings := [];
      var i := 0;
      while i < t.buildingCount
        invariant 0 <= i <= t.buildingCount
        invariant |buildings| == i
        invariant forall j :: 0 <= j < i ==> buildings[j] == BuildingAt(t, j, heights[j])
      {
        buildings := buildings + [BuildingAt(t, i, heights[i])];
        i := i + 1;
      }
    }

    /**
     * `generateAdSpots`: draws buildings without replacement from a copy of
     * the building list, mounts spot `i` on the `i`-th one drawn and records
     * the spot's id on that building.
     */
    method GenerateAdSpots(picks: seq<real>)
      requires currentScene.Some?
      requires UnitDraws(picks) && |picks| == MinNat(currentScene.value.adPositions, |buildings|)
      modifies this`buildings, this`adSpots
      ensures Layout(buildings, adSpots) == Drawn(old(buildings), picks, currentScene.value.adPositions, currentScene.value.adSize)
    {
      var t := currentScene.value;
      var layout := DrawSpots(buildings, picks, t.adPositions, t.adSize);
      buildings := layout.buildings;
      adSpots := layout.adSpots;
    }

    /**
     * `updateAds(ads)` at time `now`: entries shown for MIN_DISPLAY_TIME
     * seconds are deleted from the table in place, then each incoming ad takes
     * the first free spot until MAX_ADS are live.
     */
    method UpdateAds(ads: seq<SpotAd>, now: int)
      requires Valid()
      modifies this`activeAds
      ensures Valid()
      ensures activeAds == UpdatedAds(old(activeAds), adSpots, ads, now)
    {
      UpdatedAdsProperties(activeAds, adSpots, ads, now);
      RemoveExpired(now);
      AddAds(ads, now);
    }

    /** The first loop of `updateAds`: delete each expired entry while walking the table. */
    method RemoveExpired(now: int)
      modifies this`activeAds
      ensures activeAds == Evict(old(activeAds), now)
    {
      var table := activeAds;
      ghost var seen := 0;
      var k := 0;
      while k < |table|
        invariant EvictWalk(old(activeAds), now, seen, k, table)
        decreases |table| - k
      {
        EvictWalkStep(old(activeAds), now, seen, k, table);
        if Expired(table[k], now) {
          table := table[..k] + table[k + 1..];
        } else {
          k := k + 1;
        }
        seen := seen + 1;
      }
      EvictWalkDone(old(activeAds), now, seen, k, table);
      activeAds := table;
    }

    /** The second loop of `updateAds`: place incoming ads until MAX_ADS are live. */
    method AddAds(ads: seq<SpotAd>, now: int)
      modifies this`activeAds
      ensures activeAds == Fill(old(activeAds), adSpots, ads, now)
    {
      var j := 0;
      while j < |ads|
        invariant 0 <= j <= |ads|
        invariant Fill(activeAds, adSpots, ads[j..], now) == Fill(old(activeAds), adSpots, ads, now)
      {
        if |activeAds| >= MAX_ADS {
          break;
        }
        var spot := FirstFree(adSpots, activeAds);
        if spot.Some? {
          activeAds := activeAds + [ActiveAd(ads[j], adSpots[spot.value].id, now)];
        }
        assert ads[j..][1..] == ads[j + 1..];
        j := j + 1;
      }
    }

    /** `getSceneData`: a snapshot whose ad list is the table's values in insertion order. */
    function GetSceneData(): (d: SceneData)
      reads this
      ensures Valid() ==> KeysDistinct(d.activeAds) && |d.activeAds| <= MAX_ADS
      ensures d.sceneType == currentScene && d.buildings == buildings && d.adSpots == adSpots
      ensures d.activeAds == activeAds
    {
      SceneData(currentScene, buildings, adSpots, activeAds)
    }
  }

  /**
   * The drawing loop of `generateAdSpots`, on the building list `bs0`: up to
   * `count` buildings are drawn without replacement from a copy of the list;
   * spot `i` goes on the `i`-th drawn building, which records its id.
   */
  method DrawSpots(bs0: seq<Building>, picks: seq<real>, count: nat, size: AdSize) returns (layout: Layout)
    requires UnitDraws(picks) && |picks| == MinNat(count, |bs0|)
    ensures layout == Drawn(bs0, picks, count, size)
  {
    ghost var chosen: seq<nat> := [];
    var bs := bs0;
    var spots := [];
    // the building list copied, by position
    var available: seq<nat> := Indices(|bs|);
    var i := 0;
    DrawStart(bs0, picks, count, size);
    // the early `break` once no building is left is the second conjunct of the guard
    while i < count && |available| > 0
      invariant DrawState(bs0, picks, count, size, i, available, chosen, bs, spots)
    {
      DrawStep(bs0, picks, count, size, i, available, chosen, bs, spots);
      var k := PickIndex(picks[i], |available|);
      var b := available[k];
      available := RemoveAt(available, k);
      spots := spots + [SpotFor(i, bs[b], size)];
      bs := bs[b := bs[b].(adSpots := bs[b].adSpots + [SpotId(i)])];
      chosen := chosen + [b];
      i := i + 1;
    }
    DrawDone(bs0, picks, count, size, i, available, chosen, bs, spots);
    layout := Layout(bs, spots);
  }
}
