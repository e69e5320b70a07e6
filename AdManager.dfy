/**
 * The billboard rotation table of managers/AdManager.js: the `ads` Map from
 * spot id to the spot, the time of its last change and the index of the ad it
 * shows among SPOT_ADS. The platform ad objects (video, interstitial, banner)
 * are not part of this model.
 */
module Ads {
  import opened Common
  import opened Config
  import opened SceneLayout

  datatype AdEntry = AdEntry(spot: AdSpot, lastUpdateTime: int, currentAdIndex: nat)

  /** The entry a spot gets when it is registered: first ad, never rotated. */
  function FreshEntry(spot: AdSpot): AdEntry {
    AdEntry(spot, 0, 0)
  }

  /** `(currentAdIndex + 1) % SPOT_ADS.length`. */
  function NextIndex(i: nat): (j: nat)
    ensures j < |SPOT_ADS|
    ensures i < |SPOT_ADS| ==> j != i
  {
    (i + 1) % |SPOT_ADS|
  }

  /** ROTATION_INTERVAL milliseconds have passed since the entry last changed. */
  predicate Due(e: AdEntry, t: int) {
    t - e.lastUpdateTime >= ROTATION_INTERVAL
  }

  /** One entry at time `t`: rotated to the next ad when due, else unchanged. */
  function Rotated(e: AdEntry, t: int): (r: AdEntry)
    ensures r.spot == e.spot
    ensures Due(e, t) ==> r.lastUpdateTime == t && r.currentAdIndex == NextIndex(e.currentAdIndex)
    ensures !Due(e, t) ==> r == e
  {
    if Due(e, t) then AdEntry(e.spot, t, NextIndex(e.currentAdIndex)) else e
  }

  /** A rotation really changes the entry exactly when it is due. */
  lemma RotatedChangesIffDue(e: AdEntry, t: int)
    requires e.currentAdIndex < |SPOT_ADS|
    ensures Rotated(e, t) != e <==> Due(e, t)
  {
  }

  /**
   * Three rotations, each after a full interval, bring a spot back to the ad
   * it started from, showing each of the SPOT_ADS once on the way.
   */
  lemma RotationCycles(e: AdEntry, t: int)
    requires e.currentAdIndex < |SPOT_ADS| && Due(e, t)
    ensures var e1 := Rotated(e, t);
      var e2 := Rotated(e1, t + ROTATION_INTERVAL);
      var e3 := Rotated(e2, t + 2 * ROTATION_INTERVAL);
      && e3.currentAdIndex == e.currentAdIndex
      && e3.lastUpdateTime == t + 2 * ROTATION_INTERVAL
      && {e1.currentAdIndex, e2.currentAdIndex, e3.currentAdIndex} == {0, 1, 2}
  {
  }

  /** The update notices of one `updateAds(t)` pass, in Map order: spot id and the ad it now shows. */
  function Announcements(keys: seq<string>, ads: map<string, AdEntry>, t: int): (r: seq<(string, SpotAd)>)
    requires forall id :: id in keys ==> id in ads
    ensures |r| <= |keys|
    ensures forall n :: 0 <= n < |r| ==>
      r[n].0 in keys && Due(ads[r[n].0], t) && r[n].1 == SPOT_ADS[Rotated(ads[r[n].0], t).currentAdIndex]
    decreases |keys|
  {
    if keys == [] then []
    else
      var last := keys[|keys| - 1];
      var prev := Announcements(keys[..|keys| - 1], ads, t);
      var e := ads[last];
      prev + (if Due(e, t) then [(last, SPOT_ADS[NextIndex(e.currentAdIndex)])] else [])
  }

  /** Every spot that is due is announced, with the ad it now shows. */
  lemma {:induction false} AnnouncementsComplete(keys: seq<string>, ads: map<string, AdEntry>, t: int)
    requires forall id :: id in keys ==> id in ads
    ensures forall id :: id in keys && Due(ads[id], t) ==>
      (id, SPOT_ADS[Rotated(ads[id], t).currentAdIndex]) in Announcements(keys, ads, t)
    decreases |keys|
  {
    if keys != [] {
      var init := keys[..|keys| - 1];
      AnnouncementsComplete(init, ads, t);
      assert forall id :: id in keys ==> id in init || id == keys[|keys| - 1];
    }
  }

  /** The spot ids the notices name, in notice order. */
  function NoticeIds(r: seq<(string, SpotAd)>): (ids: seq<string>)
    ensures |ids| == |r| && forall n :: 0 <= n < |r| ==> ids[n] == r[n].0
  {
    seq(|r|, n requires 0 <= n < |r| => r[n].0)
  }

  /** `ids` lists keys in the order they have in `keys`: a later id never sits earlier in `keys`. */
  ghost predicate InKeyOrder(ids: seq<string>, keys: seq<string>) {
    forall n, m, i, j :: 0 <= n < m < |ids| && 0 <= i < |keys| && 0 <= j < |keys| && keys[i] == ids[n] && keys[j] == ids[m] ==> i < j
  }

  /**
   * With distinct keys, as a Map has, the notices of one pass follow the key
   * order, so no spot is announced twice in one pass.
   */
  lemma {:induction false} AnnouncementsInKeyOrder(keys: seq<string>, ads: map<string, AdEntry>, t: int)
    requires forall id :: id in keys ==> id in ads
    requires forall a, b :: 0 <= a < b < |keys| ==> keys[a] != keys[b]
    ensures InKeyOrder(NoticeIds(Announcements(keys, ads, t)), keys)
    ensures var r := Announcements(keys, ads, t);
      forall n, m :: 0 <= n < m < |r| ==> r[n].0 != r[m].0
    decreases |keys|
  {
    var r := Announcements(keys, ads, t);
    if keys != [] {
      var init := keys[..|keys| - 1];
      var last := keys[|keys| - 1];
      AnnouncementsInKeyOrder(init, ads, t);
      var prev := Announcements(init, ads, t);
      var e := ads[last];
      var tail := if Due(e, t) then [(last, SPOT_ADS[NextIndex(e.currentAdIndex)])] else [];
      assert r == prev + tail;
      assert NoticeIds(r) == NoticeIds(prev) + NoticeIds(tail);
      KeyOrderSnoc(NoticeIds(prev), init, last, NoticeIds(tail));
      assert init + [last] == keys;
    }
    InKeyOrderDistinct(NoticeIds(r), keys);
  }

  /** Appending the last key, if at all, after ids of the earlier keys keeps the key order. */
  lemma KeyOrderSnoc(ids: seq<string>, init: seq<string>, last: string, tail: seq<string>)
    requires last !in init
    requires forall x :: x in ids ==> x in init
    requires InKeyOrder(ids, init)
    requires forall x :: x in tail ==> x == last
    requires |tail| <= 1
    ensures InKeyOrder(ids + tail, init + [last])
  {
    var keys := init + [last];
    var all := ids + tail;
    forall n, m, i, j | 0 <= n < m < |all| && 0 <= i < |keys| && 0 <= j < |keys| && keys[i] == all[n] && keys[j] == all[m]
      ensures i < j
    {
      assert all[n] == ids[n] && ids[n] in init;
      if m < |ids| {
        assert all[m] == ids[m] && ids[m] in init;
        assert init[i] == ids[n] && init[j] == ids[m];
      } else {
        assert all[m] in tail;
        if j < |init| {
          assert init[j] == last;
        }
      }
    }
  }

  /** Ids of distinct keys listed in key order are themselves distinct. */
  lemma InKeyOrderDistinct(ids: seq<string>, keys: seq<string>)
    requires InKeyOrder(ids, keys)
    requires forall x :: x in ids ==> x in keys
    ensures forall n, m :: 0 <= n < m < |ids| ==> ids[n] != ids[m]
  {
    forall n, m | 0 <= n < m < |ids|
      ensures ids[n] != ids[m]
    {
      assert ids[n] in keys;
      var i :| 0 <= i < |keys| && keys[i] == ids[n];
    }
  }

  /** The table after `updateAdSpots(spots)`: cleared, then one fresh entry per spot, the last spot with an id winning. */
  function Registered(spots: seq<AdSpot>): (m: map<string, AdEntry>)
    ensures m.Keys == set s | s in spots :: s.id
    decreases |spots|
  {
    if spots == [] then map[]
    else
      var last := spots[|spots| - 1];
      var prev := Registered(spots[..|spots| - 1]);
      assert forall s :: s in spots <==> s in spots[..|spots| - 1] || s == last;
      prev[last.id := FreshEntry(last)]
  }

  /** The Map's key order after `updateAdSpots(spots)`: first registration of each id. */
  function RegisteredKeys(spots: seq<AdSpot>): (keys: seq<string>)
    ensures forall i, j :: 0 <= i < j < |keys| ==> keys[i] != keys[j]
    ensures forall id :: id in keys <==> exists s :: s in spots && s.id == id
    decreases |spots|
  {
    if spots == [] then []
    else
      var last := spots[|spots| - 1];
      var prev := RegisteredKeys(spots[..|spots| - 1]);
      assert forall s :: s in spots <==> s in spots[..|spots| - 1] || s == last;
      if last.id in prev then prev else prev + [last.id]
  }

  /** Every registered spot starts on the first ad with a zero timestamp, under its own id. */
  lemma {:induction false} RegisteredFresh(spots: seq<AdSpot>)
    ensures forall id :: id in Registered(spots) ==>
      Registered(spots)[id].spot.id == id && Registered(spots)[id] == FreshEntry(Registered(spots)[id].spot)
    decreases |spots|
  {
    if spots != [] {
      RegisteredFresh(spots[..|spots| - 1]);
    }
  }

  /** When spot ids are distinct, as `generateAdSpots` makes them, the keys follow the spots. */
  lemma {:induction false} RegisteredKeysInOrder(spots: seq<AdSpot>)
    requires forall i, j :: 0 <= i < j < |spots| ==> spots[i].id != spots[j].id
    ensures RegisteredKeys(spots) == seq(|spots|, i requires 0 <= i < |spots| => spots[i].id)
    decreases |spots|
  {
    if spots != [] {
      var init := spots[..|spots| - 1];
      RegisteredKeysInOrder(init);
    }
  }

  /**
   * The `forEach` of `updateAds` after visiting the first `i` keys: those
   * entries are rotated, the rest are as they were.
   */
  ghost predicate RotationWalk(keys: seq<string>, ads: map<string, AdEntry>, t: int, i: nat, table: map<string, AdEntry>) {
    && i <= |keys|
    && table.Keys == ads.Keys
    && (forall j :: 0 <= j < |keys| ==> keys[j] in ads)
    && (forall j :: 0 <= j < i ==> table[keys[j]] == Rotated(ads[keys[j]], t))
    && (forall j :: i <= j < |keys| ==> table[keys[j]] == ads[keys[j]])
  }

  lemma RotationWalkStep(keys: seq<string>, ads: map<string, AdEntry>, t: int, i: nat, table: map<string, AdEntry>)
    requires forall a, b :: 0 <= a < b < |keys| ==> keys[a] != keys[b]
    requires RotationWalk(keys, ads, t, i, table) && i < |keys|
    ensures keys[i] in table && table[keys[i]] == ads[keys[i]]
    ensures var e := table[keys[i]];
      Due(e, t) ==> RotationWalk(keys, ads, t, i + 1, table[keys[i] := AdEntry(e.spot, t, NextIndex(e.currentAdIndex))])
    ensures !Due(table[keys[i]], t) ==> RotationWalk(keys, ads, t, i + 1, table)
  {
  }

  lemma RotationWalkDone(keys: seq<string>, ads: map<string, AdEntry>, t: int, table: map<string, AdEntry>)
    requires RotationWalk(keys, ads, t, |keys|, table)
    requires forall id :: id in ads ==> id in keys
    ensures table == RotatedTable(ads, t)
  {
    forall id | id in table
      ensures table[id] == Rotated(ads[id], t)
    {
      var j :| 0 <= j < |keys| && keys[j] == id;
    }
  }

  /** One more key visited adds its notice, if any. */
  lemma AnnouncementsSnoc(keys: seq<string>, ads: map<string, AdEntry>, t: int, i: nat)
    requires forall id :: id in keys ==> id in ads
    requires i < |keys|
    ensures var e := ads[keys[i]];
      Announcements(keys[..i + 1], ads, t)
        == Announcements(keys[..i], ads, t) + (if Due(e, t) then [(keys[i], SPOT_ADS[NextIndex(e.currentAdIndex)])] else [])
  {
    assert keys[..i + 1][..i] == keys[..i];
    assert keys[..i + 1][i] == keys[i];
  }

  /** The whole table at time `t`: every entry rotated if due. */
  function RotatedTable(ads: map<string, AdEntry>, t: int): (r: map<string, AdEntry>)
    ensures r.Keys == ads.Keys
    ensures forall id :: id in ads && ads[id].currentAdIndex < |SPOT_ADS| ==> r[id].currentAdIndex < |SPOT_ADS|
  {
    map id | id in ads :: Rotated(ads[id], t)
  }

  /**
   * The `forEach` of `updateAds` over the Map's keys in order, on the table
   * `ads`: each due entry is replaced by its rotation and its notice emitted.
   */
  method RotateAll(keys: seq<string>, ads: map<string, AdEntry>, t: int) returns (table: map<string, AdEntry>, notices: seq<(string, SpotAd)>)
    requires forall a, b :: 0 <= a < b < |keys| ==> keys[a] != keys[b]
    requires forall id :: id in keys ==> id in ads
    requires forall id :: id in ads ==> id in keys
    ensures table == RotatedTable(ads, t)
    ensures notices == Announcements(keys, ads, t)
  {
    table := ads;
    notices := [];
    var i := 0;
    while i < |keys|
      invariant RotationWalk(keys, ads, t, i, table)
      invariant notices == Announcements(keys[..i], ads, t)
    {
      RotationWalkStep(keys, ads, t, i, table);
      AnnouncementsSnoc(keys, ads, t, i);
      var id := keys[i];
      var e := table[id];
      if t - e.lastUpdateTime >= ROTATION_INTERVAL {
        var next := NextIndex(e.currentAdIndex);
        notices := notices + [(id, SPOT_ADS[next])];
        table := table[id := AdEntry(e.spot, t, next)];
      }
      i := i + 1;
    }
    assert keys[..i] == keys;
    RotationWalkDone(keys, ads, t, table);
  }

  class AdManager {
    /** Keys of the `ads` Map in insertion order. */
    var keys: seq<string>
    var ads: map<string, AdEntry>

    /** The key order lists each key of the table once and every entry shows one of SPOT_ADS. */
    predicate Valid()
      reads this
    {
      && (forall i, j :: 0 <= i < j < |keys| ==> keys[i] != keys[j])
      && (forall id :: id in keys ==> id in ads)
      && (forall id :: id in ads ==> id in keys)
      && (forall id :: id in ads ==> ads[id].currentAdIndex < |SPOT_ADS|)
    }

    constructor()
      ensures keys == [] && ads == map[]
      ensures Valid()
    {
      keys := [];
      ads := map[];
    }

    /** `updateAdSpots(spots)`: clear the table and register every spot. */
    method UpdateAdSpots(spots: seq<AdSpot>)
      modifies this
      ensures Valid()
      ensures keys == RegisteredKeys(spots) && ads == Registered(spots)
    {
      keys := [];
      ads := map[];
      var i := 0;
      while i < |spots|
        invariant 0 <= i <= |spots|
        invariant keys == RegisteredKeys(spots[..i]) && ads == Registered(spots[..i])
      {
        var spot := spots[i];
        assert spots[..i + 1][..i] == spots[..i] && spots[..i + 1][i] == spot;
        if spot.id !in ads {
          keys := keys + [spot.id];
        }
        ads := ads[spot.id := FreshEntry(spot)];
        i := i + 1;
      }
      assert spots[..i] == spots;
      RegisteredFresh(spots);
    }

    /**
     * `updateAds(t)`: every entry that is due moves on to the next ad and
     * takes `t` as its time; the returned notices are what is handed to the
     * renderer, in Map order.
     */
    method UpdateAds(t: int) returns (notices: seq<(string, SpotAd)>)
      requires Valid()
      modifies this`ads
      ensures Valid()
      ensures ads == RotatedTable(old(ads), t)
      ensures notices == Announcements(keys, old(ads), t)
    {
      var table;
      table, notices := RotateAll(keys, ads, t);
      ads := table;
    }

    /** `dispose`: the table is emptied. */
    method Dispose()
      modifies this
      ensures keys == [] && ads == map[]
      ensures Valid()
    {
      keys := [];
      ads := map[];
    }
  }
}
