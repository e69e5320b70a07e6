/**
 * The ad-slot occupancy table of managers/SceneManager.js (`activeAds`) as
 * values: eviction after the minimum display time, then filling the first
 * free spot, in spot order, while fewer than MAX_ADS ads are live.
 */
module AdSlots {
  import opened Common
  import opened Config
  import opened SceneLayout

  /**
   * One live assignment: the incoming ad with `spotId` and `startTime` set.
   * The Map key of an assignment is always its `spotId`, so the table is kept
   * as the sequence of its values in insertion order.
   */
  datatype ActiveAd = ActiveAd(ad: SpotAd, spotId: string, startTime: int)

  /** Shown for at least MIN_DISPLAY_TIME seconds by time `now` (milliseconds). */
  predicate Expired(a: ActiveAd, now: int) {
    now - a.startTime >= MIN_DISPLAY_TIME * 1000
  }

  /** `activeAds.has(id)`. */
  predicate Occupied(active: seq<ActiveAd>, id: string) {
    exists a :: a in active && a.spotId == id
  }

  /** Map keys are unique: no spot holds two ads. */
  predicate KeysDistinct(active: seq<ActiveAd>) {
    forall i, j :: 0 <= i < j < |active| ==> active[i].spotId != active[j].spotId
  }

  function SpotIds(spots: seq<AdSpot>): set<string> {
    set s | s in spots :: s.id
  }

  /** Every key of the table names one of the scene's spots. */
  predicate KeysAreSpots(active: seq<ActiveAd>, spots: seq<AdSpot>) {
    forall a :: a in active ==> a.spotId in SpotIds(spots)
  }

  /** The table after deleting every expired entry, the others in their order. */
  function Evict(active: seq<ActiveAd>, now: int): (r: seq<ActiveAd>)
    ensures |r| <= |active|
    ensures forall a :: a in r ==> a in active && !Expired(a, now)
    ensures forall a :: a in active && !Expired(a, now) ==> a in r
    ensures KeysDistinct(active) ==> KeysDistinct(r)
  {
    if active == [] then []
    else
      var last := active[|active| - 1];
      var init := active[..|active| - 1];
      var prev := Evict(init, now);
      assert forall a :: a in active ==> a in init || a == last;
      assert KeysDistinct(active) ==> forall a :: a in init ==> a.spotId != last.spotId;
      prev + (if Expired(last, now) then [] else [last])
  }

  /**
   * The eviction walk: after visiting `seen` entries of `before`, the table
   * holds the survivors among them up to position `k` and the unvisited rest
   * after it. Visiting the entry at `k` deletes it or steps over it.
   */
  ghost predicate EvictWalk(before: seq<ActiveAd>, now: int, seen: nat, k: nat, table: seq<ActiveAd>) {
    seen <= |before| && k <= |table| && table[..k] == Evict(before[..seen], now) && table[k..] == before[seen..]
  }

  lemma EvictWalkStep(before: seq<ActiveAd>, now: int, seen: nat, k: nat, table: seq<ActiveAd>)
    requires EvictWalk(before, now, seen, k, table) && k < |table|
    ensures seen < |before| && table[k] == before[seen]
    ensures Expired(table[k], now) ==> EvictWalk(before, now, seen + 1, k, table[..k] + table[k + 1..])
    ensures !Expired(table[k], now) ==> EvictWalk(before, now, seen + 1, k + 1, table)
  {
    assert table[k..][0] == table[k];
    assert before[..seen + 1][..seen] == before[..seen];
    assert table[k + 1..] == table[k..][1..] && before[seen + 1..] == before[seen..][1..];
    assert (table[..k] + table[k + 1..])[..k] == table[..k];
    assert (table[..k] + table[k + 1..])[k..] == table[k + 1..];
    assert table[..k + 1] == table[..k] + [table[k]];
  }

  lemma EvictWalkDone(before: seq<ActiveAd>, now: int, seen: nat, k: nat, table: seq<ActiveAd>)
    requires EvictWalk(before, now, seen, k, table) && k == |table|
    ensures table == Evict(before, now)
  {
    assert before[..seen] == before;
    assert table[..k] == table;
  }

  function FirstFreeFrom(spots: seq<AdSpot>, active: seq<ActiveAd>, from: nat): (r: Option<nat>)
    requires from <= |spots|
    ensures r.Some? ==> from <= r.value < |spots| && !Occupied(active, spots[r.value].id)
    ensures r.Some? ==> forall j :: from <= j < r.value ==> Occupied(active, spots[j].id)
    ensures r.None? ==> forall j :: from <= j < |spots| ==> Occupied(active, spots[j].id)
    decreases |spots| - from
  {
    if from == |spots| then None
    else if !Occupied(active, spots[from].id) then Some(from)
    else FirstFreeFrom(spots, active, from + 1)
  }

  /** `adSpots.find(spot => !activeAds.has(spot.id))`, as an index. */
  function FirstFree(spots: seq<AdSpot>, active: seq<ActiveAd>): (r: Option<nat>)
    ensures r.Some? ==> r.value < |spots| && !Occupied(active, spots[r.value].id)
    ensures r.Some? ==> forall j :: 0 <= j < r.value ==> Occupied(active, spots[j].id)
    ensures r.None? ==> forall j :: 0 <= j < |spots| ==> Occupied(active, spots[j].id)
  {
    FirstFreeFrom(spots, active, 0)
  }

  /**
   * The filling loop: stop once MAX_ADS are live; otherwise the next ad takes
   * the first free spot, or is dropped when every spot is taken.
   */
  function Fill(active: seq<ActiveAd>, spots: seq<AdSpot>, ads: seq<SpotAd>, now: int): seq<ActiveAd>
    decreases |ads|
  {
    if ads == [] || |active| >= MAX_ADS then active
    else
      match FirstFree(spots, active)
      case None => Fill(active, spots, ads[1..], now)
      case Some(k) => Fill(active + [ActiveAd(ads[0], spots[k].id, now)], spots, ads[1..], now)
  }

  /** `updateAds(ads)` at time `now`: evict, then fill. */
  function UpdatedAds(active: seq<ActiveAd>, spots: seq<AdSpot>, ads: seq<SpotAd>, now: int): seq<ActiveAd> {
    Fill(Evict(active, now), spots, ads, now)
  }

  /** Filling keeps every existing entry in place and appends at most one entry per incoming ad. */
  lemma {:induction false} FillKeepsPrefix(active: seq<ActiveAd>, spots: seq<AdSpot>, ads: seq<SpotAd>, now: int)
    ensures |active| <= |Fill(active, spots, ads, now)| <= |active| + |ads|
    ensures Fill(active, spots, ads, now)[..|active|] == active
    decreases |ads|
  {
    if ads == [] || |active| >= MAX_ADS {
    } else {
      match FirstFree(spots, active)
      case None =>
        FillKeepsPrefix(active, spots, ads[1..], now);
      case Some(k) =>
        var next := active + [ActiveAd(ads[0], spots[k].id, now)];
        FillKeepsPrefix(next, spots, ads[1..], now);
        assert Fill(next, spots, ads[1..], now)[..|active|] == next[..|active|];
    }
  }

  /** Every appended entry starts now, on a spot of the scene, with one of the incoming ads. */
  lemma {:induction false} FillNewEntries(active: seq<ActiveAd>, spots: seq<AdSpot>, ads: seq<SpotAd>, now: int)
    ensures forall a :: a in Fill(active, spots, ads, now) ==>
      a in active || (a.startTime == now && a.spotId in SpotIds(spots) && a.ad in ads)
    decreases |ads|
  {
    if ads == [] || |active| >= MAX_ADS {
    } else {
      assert forall x :: x in ads[1..] ==> x in ads;
      match FirstFree(spots, active)
      case None =>
        FillNewEntries(active, spots, ads[1..], now);
      case Some(k) =>
        assert spots[k] in spots;
        FillNewEntries(active + [ActiveAd(ads[0], spots[k].id, now)], spots, ads[1..], now);
    }
  }

  /** The table never grows past MAX_ADS, and one already past it is left alone. */
  lemma {:induction false} FillBounded(active: seq<ActiveAd>, spots: seq<AdSpot>, ads: seq<SpotAd>, now: int)
    ensures |active| <= MAX_ADS ==> |Fill(active, spots, ads, now)| <= MAX_ADS
    ensures |active| >= MAX_ADS ==> Fill(active, spots, ads, now) == active
    decreases |ads|
  {
    if ads == [] || |active| >= MAX_ADS {
    } else {
      match FirstFree(spots, active)
      case None =>
        FillBounded(active, spots, ads[1..], now);
      case Some(k) =>
        FillBounded(active + [ActiveAd(ads[0], spots[k].id, now)], spots, ads[1..], now);
    }
  }

  /** A new ad only ever goes to a free spot, so keys stay unique. */
  lemma {:induction false} FillKeysDistinct(active: seq<ActiveAd>, spots: seq<AdSpot>, ads: seq<SpotAd>, now: int)
    requires KeysDistinct(active)
    ensures KeysDistinct(Fill(active, spots, ads, now))
    decreases |ads|
  {
    if ads == [] || |active| >= MAX_ADS {
    } else {
      match FirstFree(spots, active)
      case None =>
        FillKeysDistinct(active, spots, ads[1..], now);
      case Some(k) =>
        var next := active + [ActiveAd(ads[0], spots[k].id, now)];
        forall i | 0 <= i < |active| ensures active[i].spotId != spots[k].id {
          assert active[i] in active;
        }
        FillKeysDistinct(next, spots, ads[1..], now);
    }
  }

  /** Once every spot is taken, all further incoming ads are dropped. */
  lemma {:induction false} FillDropsWhenNoSpotFree(active: seq<ActiveAd>, spots: seq<AdSpot>, ads: seq<SpotAd>, now: int)
    requires FirstFree(spots, active).None?
    ensures Fill(active, spots, ads, now) == active
    decreases |ads|
  {
    if ads != [] && |active| < MAX_ADS {
      FillDropsWhenNoSpotFree(active, spots, ads[1..], now);
    }
  }

  /**
   * What `updateAds` promises about the table: no entry that had expired
   * survives; every unexpired entry stays, unchanged; new entries start now on
   * spots of the scene; keys stay unique and stay spot ids; a table within
   * MAX_ADS stays within MAX_ADS.
   */
  lemma UpdatedAdsProperties(active: seq<ActiveAd>, spots: seq<AdSpot>, ads: seq<SpotAd>, now: int)
    ensures var r := UpdatedAds(active, spots, ads, now);
      && (forall a :: a in active && Expired(a, now) ==> a !in r)
      && (forall a :: a in active && !Expired(a, now) ==> a in r)
      && (forall a :: a in r ==> (a in active && !Expired(a, now)) || (a.startTime == now && a.spotId in SpotIds(spots)))
      && (KeysDistinct(active) ==> KeysDistinct(r))
      && (KeysAreSpots(active, spots) ==> KeysAreSpots(r, spots))
      && (|active| <= MAX_ADS ==> |r| <= MAX_ADS)
  {
    var e := Evict(active, now);
    var r := Fill(e, spots, ads, now);
    FillKeepsPrefix(e, spots, ads, now);
    FillNewEntries(e, spots, ads, now);
    if |e| <= MAX_ADS {
      FillBounded(e, spots, ads, now);
    }
    if KeysDistinct(active) {
      FillKeysDistinct(e, spots, ads, now);
    }
    forall a | a in active && !Expired(a, now)
      ensures a in r
    {
      var i :| 0 <= i < |e| && e[i] == a;
      assert r[..|e|][i] == a;
    }
  }
}
