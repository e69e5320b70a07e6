/**
 * The world-layout rules of managers/SceneManager.js as values: the square
 * building grid, the building records, the choice of ad-spot buildings
 * without replacement, the ad-spot records and their facing rule.
 */
module SceneLayout {
  import opened Common
  import opened Config
  import opened Decimal

  datatype Size = Size(width: real, height: real, depth: real)

  /** A placed building; `adSpots` lists the ids of the spots mounted on it. */
  datatype Building = Building(id: string, position: Vec3, size: Size, rotation: Vec3, adSpots: seq<string>)

  /** The four values `rotation.y` of an ad spot can take: 0, π/2, π and -π/2. */
  datatype Facing = Zero | HalfPi | Pi | MinusHalfPi

  /** An ad spot; its rotation is (0, facing, 0) and its `currentAd` is always null. */
  datatype AdSpot = AdSpot(id: string, buildingId: string, position: Vec3, size: AdSize, facing: Facing)

  function BuildingId(i: nat): string {
    "building_" + NatToString(i)
  }

  function SpotId(i: nat): string {
    "ad_spot_" + NatToString(i)
  }

  lemma BuildingIdInjective(i: nat, j: nat)
    ensures BuildingId(i) == BuildingId(j) <==> i == j
  {
    if BuildingId(i) == BuildingId(j) {
      PrefixedInjective("building_", i, j);
    }
  }

  lemma SpotIdInjective(i: nat, j: nat)
    ensures SpotId(i) == SpotId(j) <==> i == j
  {
    if SpotId(i) == SpotId(j) {
      PrefixedInjective("ad_spot_", i, j);
    }
  }

  // ---------------------------------------------------------------- grid

  /** The least `g >= from` with `g * g >= n`. */
  function CeilSqrtFrom(n: nat, from: nat): (g: nat)
    requires from == 0 || (from - 1) * (from - 1) < n
    ensures g * g >= n
    ensures g == 0 || (g - 1) * (g - 1) < n
    ensures g >= from
    decreases n - from
  {
    if from * from >= n then from
    else
      assert from < n;
      CeilSqrtFrom(n, from + 1)
  }

  /** `Math.ceil(Math.sqrt(n))`: the side of the smallest square grid holding `n` cells. */
  function GridSize(n: nat): (g: nat)
    ensures g * g >= n
    ensures g == 0 || (g - 1) * (g - 1) < n
  {
    CeilSqrtFrom(n, 0)
  }

  /** Cell `i` of a `g`-wide grid is at column `i % g`, row `i / g`; distinct cells differ. */
  lemma GridCellsDistinct(n: nat, i: nat, j: nat)
    requires i < n && j < n && i != j
    ensures GridSize(n) > 0
    ensures i / GridSize(n) < GridSize(n) && j / GridSize(n) < GridSize(n)
    ensures (i % GridSize(n), i / GridSize(n)) != (j % GridSize(n), j / GridSize(n))
  {
    RowInGrid(n, i);
    RowInGrid(n, j);
  }

  lemma RowInGrid(n: nat, i: nat)
    requires i < n
    ensures GridSize(n) > 0 && i / GridSize(n) < GridSize(n)
  {
    QuotientBelow(i, GridSize(n));
  }

  lemma QuotientBelow(i: nat, g: nat)
    requires i < g * g
    ensures g > 0 && i / g < g
  {
  }

  /** Building `i` of scene `t`, given the draw `r` that picks its height. */
  function BuildingAt(t: SceneType, i: nat, r: real): Building
    requires i < t.buildingCount
  {
    var g := GridSize(t.buildingCount);
    RowInGrid(t.buildingCount, i);
    Building(
      BuildingId(i),
      Vec3(CellCentre(i % g, t.buildingSpacing, g), 0.0, CellCentre(i / g, t.buildingSpacing, g)),
      Size(t.buildingSpacing * 0.8, Height(t, r), t.buildingSpacing * 0.8),
      ORIGIN,
      [])
  }

  /** World coordinate of grid line `cell`: `cell * spacing - offset`, with the grid centred on the origin. */
  function CellCentre(cell: nat, spacing: real, g: nat): real {
    (cell as real) * spacing - (g as real) * spacing / 2.0
  }

  /** `minBuildingHeight + r * (maxBuildingHeight - minBuildingHeight)`. */
  function Height(t: SceneType, r: real): real {
    t.minBuildingHeight + Fraction(r, t.maxBuildingHeight - t.minBuildingHeight)
  }

  /** The `generateBuildings` result: building `i` built from the `i`-th height draw. */
  function LayoutBuildings(t: SceneType, heights: seq<real>): (bs: seq<Building>)
    requires |heights| == t.buildingCount
    ensures |bs| == t.buildingCount
    ensures forall i :: 0 <= i < |bs| ==> bs[i] == BuildingAt(t, i, heights[i])
  {
    seq(t.buildingCount, i requires 0 <= i < t.buildingCount => BuildingAt(t, i, heights[i]))
  }

  /** Every building has its numbered id, stands on the ground and carries no ad spot yet. */
  lemma BuildingShape(t: SceneType, i: nat, r: real)
    requires i < t.buildingCount
    ensures BuildingAt(t, i, r).id == BuildingId(i)
    ensures BuildingAt(t, i, r).position.y == 0.0
    ensures BuildingAt(t, i, r).size.width == BuildingAt(t, i, r).size.depth == 0.8 * t.buildingSpacing
    ensures BuildingAt(t, i, r).adSpots == []
  {
  }

  /** With a draw in [0, 1), the height lies in [minBuildingHeight, maxBuildingHeight). */
  lemma HeightInRange(t: SceneType, r: real)
    requires 0.0 <= r < 1.0
    requires t.minBuildingHeight < t.maxBuildingHeight
    ensures t.minBuildingHeight <= Height(t, r) < t.maxBuildingHeight
  {
  }

  /** No two buildings of a scene stand on the same spot of the ground. */
  lemma PositionsDistinct(t: SceneType, i: nat, j: nat, ri: real, rj: real)
    requires i < t.buildingCount && j < t.buildingCount && i != j
    requires t.buildingSpacing > 0.0
    ensures BuildingAt(t, i, ri).position != BuildingAt(t, j, rj).position
  {
    var g := GridSize(t.buildingCount);
    GridCellsDistinct(t.buildingCount, i, j);
    if i % g != j % g {
      CellCentreInjective(i % g, j % g, t.buildingSpacing, g);
    } else {
      CellCentreInjective(i / g, j / g, t.buildingSpacing, g);
    }
  }

  lemma CellCentreInjective(a: nat, b: nat, s: real, g: nat)
    requires a != b && s > 0.0
    ensures CellCentre(a, s, g) != CellCentre(b, s, g)
  {
    if a < b {
      assert (b as real) * s - (a as real) * s == ((b - a) as real) * s;
      assert ((b - a) as real) * s >= 1.0 * s;
    } else {
      assert (a as real) * s - (b as real) * s == ((a - b) as real) * s;
      assert ((a - b) as real) * s >= 1.0 * s;
    }
  }

  // ---------------------------------------------------------------- ad spots

  function Abs(x: real): real {
    if x < 0.0 then -x else x
  }

  /**
   * The unit normal (sin θ, cos θ) on the ground plane of a spot turned by
   * `rotation.y = θ`, as integer components.
   */
  function Normal(f: Facing): (int, int) {
    match f
    case Zero => (0, 1)
    case HalfPi => (1, 0)
    case Pi => (0, -1)
    case MinusHalfPi => (-1, 0)
  }

  /** The facing rule of `generateAdSpots`: decide by the farther axis, ties to z. */
  function FacingFor(x: real, z: real): Facing {
    if Abs(x) > Abs(z) then
      (if x > 0.0 then MinusHalfPi else HalfPi)
    else
      (if z > 0.0 then Pi else Zero)
  }

  /**
   * Along whichever axis the spot is farther from the world centre, its normal
   * points back towards the centre: the normal's dot product with the spot's
   * ground position is minus the larger of |x| and |z|, and the normal lies on
   * the x axis exactly when |x| > |z|.
   */
  lemma FacingPointsInward(x: real, z: real)
    ensures var n := Normal(FacingFor(x, z));
      && (n.0 as real) * x + (n.1 as real) * z == -(if Abs(x) > Abs(z) then Abs(x) else Abs(z))
      && (n.0 != 0 <==> Abs(x) > Abs(z))
  {
  }

  /** Spot `i`, mounted on building `b` at 70% of its height. */
  function SpotFor(i: nat, b: Building, size: AdSize): AdSpot {
    AdSpot(SpotId(i), b.id, Vec3(b.position.x, b.size.height * 0.7, b.position.z), size,
           FacingFor(b.position.x, b.position.z))
  }

  predicate Distinct(s: seq<nat>) {
    forall a, b :: 0 <= a < b < |s| ==> s[a] != s[b]
  }

  /** The indices 0 .. n-1 in order: `[...this.buildings]` as positions. */
  function Indices(n: nat): (s: seq<nat>)
    ensures |s| == n && Distinct(s)
    ensures forall k :: 0 <= k < n ==> s[k] == k
  {
    seq(n, k requires 0 <= k < n => k)
  }

  /** `available.splice(k, 1)`. */
  function RemoveAt(s: seq<nat>, k: nat): (r: seq<nat>)
    requires k < |s|
    ensures |r| == |s| - 1
    ensures forall x :: x in r ==> x in s
    ensures Distinct(s) ==> Distinct(r) && s[k] !in r
  {
    var r := s[..k] + s[k + 1..];
    assert forall a :: 0 <= a < |r| ==> r[a] == (if a < k then s[a] else s[a + 1]);
    r
  }

  /**
   * The buildings `generateAdSpots` picks: up to `count` of `available`, each
   * draw choosing uniformly among those not yet taken.
   */
  function Choose(available: seq<nat>, picks: seq<real>, count: nat): (chosen: seq<nat>)
    requires UnitDraws(picks) && |picks| >= MinNat(count, |available|)
    ensures |chosen| == MinNat(count, |available|)
    ensures forall k :: 0 <= k < |chosen| ==> chosen[k] in available
    ensures Distinct(available) ==> Distinct(chosen)
    decreases count
  {
    if count == 0 || |available| == 0 then []
    else
      var k := PickIndex(picks[0], |available|);
      var rest := Choose(RemoveAt(available, k), picks[1..], count - 1);
      [available[k]] + rest
  }

  /** The buildings (by index) that receive a spot in scene `t`. */
  function ChosenBuildings(t: SceneType, picks: seq<real>): seq<nat>
    requires UnitDraws(picks) && |picks| == MinNat(t.adPositions, t.buildingCount)
  {
    Choose(Indices(t.buildingCount), picks, t.adPositions)
  }

  /** Spot `k` of `chosen`, on building `chosen[k]` of `bs`. */
  function Spots(bs: seq<Building>, chosen: seq<nat>, size: AdSize): (spots: seq<AdSpot>)
    requires forall k :: 0 <= k < |chosen| ==> chosen[k] < |bs|
    ensures |spots| == |chosen|
    ensures forall k :: 0 <= k < |chosen| ==> spots[k] == SpotFor(k, bs[chosen[k]], size)
  {
    seq(|chosen|, k requires 0 <= k < |chosen| => SpotFor(k, bs[chosen[k]], size))
  }

  /** `building.adSpots.push(adSpot.id)` for spot `k` on building `chosen[k]`, in order. */
  function Attach(bs: seq<Building>, chosen: seq<nat>): (r: seq<Building>)
    requires forall k :: 0 <= k < |chosen| ==> chosen[k] < |bs|
    ensures |r| == |bs|
    ensures forall j :: 0 <= j < |bs| ==> r[j] == bs[j].(adSpots := r[j].adSpots)
  {
    if chosen == [] then bs
    else
      var last := |chosen| - 1;
      var prev := Attach(bs, chosen[..last]);
      var j := chosen[last];
      prev[j := prev[j].(adSpots := prev[j].adSpots + [SpotId(last)])]
  }

  /**
   * When no building is chosen twice, a chosen building gains exactly the id
   * of its own spot and every other building is untouched.
   */
  lemma {:induction false} AttachAt(bs: seq<Building>, chosen: seq<nat>)
    requires forall k :: 0 <= k < |chosen| ==> chosen[k] < |bs|
    requires Distinct(chosen)
    ensures forall k :: 0 <= k < |chosen| ==>
      Attach(bs, chosen)[chosen[k]] == bs[chosen[k]].(adSpots := bs[chosen[k]].adSpots + [SpotId(k)])
    ensures forall j :: 0 <= j < |bs| && j !in chosen ==> Attach(bs, chosen)[j] == bs[j]
  {
    if chosen != [] {
      var last := |chosen| - 1;
      var init := chosen[..last];
      assert Distinct(init);
      AttachAt(bs, init);
      forall j | 0 <= j < |bs| && j !in init && j != chosen[last]
        ensures Attach(bs, chosen)[j] == bs[j]
      {
      }
      forall k | 0 <= k < last
        ensures Attach(bs, chosen)[chosen[k]] == bs[chosen[k]].(adSpots := bs[chosen[k]].adSpots + [SpotId(k)])
      {
        assert chosen[k] == init[k] && chosen[k] != chosen[last];
      }
      assert chosen[last] !in init;
    }
  }

  /** One draw of `Choose`: the picked entry, then a choice among the rest. */
  lemma ChooseStep(available: seq<nat>, picks: seq<real>, count: nat)
    requires UnitDraws(picks) && |picks| >= MinNat(count, |available|)
    requires count > 0 && |available| > 0
    ensures var k := PickIndex(picks[0], |available|);
      Choose(available, picks, count) == [available[k]] + Choose(RemoveAt(available, k), picks[1..], count - 1)
  {
  }

  /** One more spot, on building `b`. */
  lemma SpotsSnoc(bs: seq<Building>, chosen: seq<nat>, b: nat, size: AdSize)
    requires forall k :: 0 <= k < |chosen| ==> chosen[k] < |bs|
    requires b < |bs|
    ensures Spots(bs, chosen + [b], size) == Spots(bs, chosen, size) + [SpotFor(|chosen|, bs[b], size)]
  {
    assert forall k :: 0 <= k < |chosen| ==> (chosen + [b])[k] == chosen[k];
  }

  /** One more attachment, to building `b`. */
  lemma AttachSnoc(bs: seq<Building>, chosen: seq<nat>, b: nat)
    requires forall k :: 0 <= k < |chosen| ==> chosen[k] < |bs|
    requires b < |bs|
    ensures var prev := Attach(bs, chosen);
      Attach(bs, chosen + [b]) == prev[b := prev[b].(adSpots := prev[b].adSpots + [SpotId(|chosen|)])]
  {
    assert (chosen + [b])[..|chosen|] == chosen;
  }

  /** A spot reads only the position and height of its building. */
  lemma SpotForIgnoresAdSpots(i: nat, b: Building, ids: seq<string>, size: AdSize)
    ensures SpotFor(i, b.(adSpots := ids), size) == SpotFor(i, b, size)
  {
  }

  /** Buildings with their spots. */
  datatype Layout = Layout(buildings: seq<Building>, adSpots: seq<AdSpot>)

  /**
   * `generateAdSpots` on buildings `bs`: choose `count` of them with the draws
   * `picks`, attach spot `k` to the `k`-th chosen building.
   */
  function Drawn(bs: seq<Building>, picks: seq<real>, count: nat, size: AdSize): Layout
    requires UnitDraws(picks) && |picks| == MinNat(count, |bs|)
  {
    var chosen := Choose(Indices(|bs|), picks, count);
    Layout(Attach(bs, chosen), Spots(bs, chosen, size))
  }

  /**
   * Where the drawing loop of `generateAdSpots` stands after `i` draws: the
   * draws so far (`chosen`) followed by what the remaining draws pick from the
   * buildings still `available` make up the whole choice, and the buildings
   * and spots built so far are those of `chosen`.
   */
  ghost predicate DrawState(bs0: seq<Building>, picks: seq<real>, count: nat, size: AdSize,
                            i: nat, available: seq<nat>, chosen: seq<nat>,
                            bs: seq<Building>, spots: seq<AdSpot>)
  {
    && i <= count && i <= |picks| && UnitDraws(picks) && |picks| == MinNat(count, |bs0|)
    && |available| == |bs0| - i && |chosen| == i
    && Distinct(available) && (forall x :: x in available ==> x < |bs0|)
    && (forall k :: 0 <= k < i ==> chosen[k] < |bs0|)
    && chosen + Choose(available, picks[i..], count - i) == Choose(Indices(|bs0|), picks, count)
    && bs == Attach(bs0, chosen)
    && spots == Spots(bs0, chosen, size)
  }

  lemma DrawStart(bs0: seq<Building>, picks: seq<real>, count: nat, size: AdSize)
    requires UnitDraws(picks) && |picks| == MinNat(count, |bs0|)
    ensures DrawState(bs0, picks, count, size, 0, Indices(|bs0|), [], bs0, [])
  {
    assert picks[0..] == picks;
  }

  /** One draw moves the picked building from the remaining choice to the draws so far. */
  lemma ChooseAdvance(bs0: seq<Building>, picks: seq<real>, count: nat, i: nat, available: seq<nat>, chosen: seq<nat>)
    requires i < count && i < |picks| && UnitDraws(picks) && |picks| == MinNat(count, |bs0|)
    requires |available| == |bs0| - i > 0
    requires chosen + Choose(available, picks[i..], count - i) == Choose(Indices(|bs0|), picks, count)
    ensures var k := PickIndex(picks[i], |available|);
      (chosen + [available[k]]) + Choose(RemoveAt(available, k), picks[i + 1..], count - (i + 1))
        == Choose(Indices(|bs0|), picks, count)
  {
    var rest := picks[i..];
    assert rest[0] == picks[i] && rest[1..] == picks[i + 1..];
    ChooseStep(available, rest, count - i);
  }

  /** One pass of the loop body keeps the state. */
  lemma DrawStep(bs0: seq<Building>, picks: seq<real>, count: nat, size: AdSize,
                 i: nat, available: seq<nat>, chosen: seq<nat>, bs: seq<Building>, spots: seq<AdSpot>)
    requires DrawState(bs0, picks, count, size, i, available, chosen, bs, spots)
    requires i < count && |available| > 0
    ensures i < |picks| && |bs| == |bs0|
    ensures var k := PickIndex(picks[i], |available|);
      var b := available[k];
      && b < |bs|
      && DrawState(bs0, picks, count, size, i + 1, RemoveAt(available, k), chosen + [b],
                   bs[b := bs[b].(adSpots := bs[b].adSpots + [SpotId(i)])],
                   spots + [SpotFor(i, bs[b], size)])
  {
    var k := PickIndex(picks[i], |available|);
    var b := available[k];
    assert b in available;
    ChooseAdvance(bs0, picks, count, i, available, chosen);
    SpotForIgnoresAdSpots(i, bs0[b], bs[b].adSpots, size);
    SpotsSnoc(bs0, chosen, b, size);
    AttachSnoc(bs0, chosen, b);
  }

  /** When the loop ends, by count or by running out of buildings, the choice is complete. */
  lemma DrawDone(bs0: seq<Building>, picks: seq<real>, count: nat, size: AdSize,
                 i: nat, available: seq<nat>, chosen: seq<nat>, bs: seq<Building>, spots: seq<AdSpot>)
    requires DrawState(bs0, picks, count, size, i, available, chosen, bs, spots)
    requires i == count || |available| == 0
    ensures Layout(bs, spots) == Drawn(bs0, picks, count, size)
  {
    assert Choose(available, picks[i..], count - i) == [];
    assert chosen == Choose(Indices(|bs0|), picks, count);
  }

  /** The complete layout of `initScene` for scene `t` and the given random draws. */
  function GeneratedLayout(t: SceneType, heights: seq<real>, picks: seq<real>): Layout
    requires |heights| == t.buildingCount
    requires UnitDraws(picks) && |picks| == MinNat(t.adPositions, t.buildingCount)
  {
    Drawn(LayoutBuildings(t, heights), picks, t.adPositions, t.adSize)
  }

  /** `buildingCount` buildings and `min(adPositions, buildingCount)` spots. */
  lemma LayoutCounts(t: SceneType, heights: seq<real>, picks: seq<real>)
    requires |heights| == t.buildingCount
    requires UnitDraws(picks) && |picks| == MinNat(t.adPositions, t.buildingCount)
    ensures |GeneratedLayout(t, heights, picks).buildings| == t.buildingCount
    ensures |GeneratedLayout(t, heights, picks).adSpots| == MinNat(t.adPositions, t.buildingCount)
  {
  }

  /**
   * Building `i` has id `building_i`, a height in range and a position no
   * other building shares.
   */
  lemma LayoutBuildingsSound(t: SceneType, heights: seq<real>, picks: seq<real>, i: nat, j: nat)
    requires WellFormed(t)
    requires |heights| == t.buildingCount && UnitDraws(heights)
    requires UnitDraws(picks) && |picks| == MinNat(t.adPositions, t.buildingCount)
    requires i < t.buildingCount && j < t.buildingCount && i != j
    ensures var bs := GeneratedLayout(t, heights, picks).buildings;
      && bs[i].id == BuildingId(i)
      && t.minBuildingHeight <= bs[i].size.height < t.maxBuildingHeight
      && bs[i].position != bs[j].position
  {
    var bs := LayoutBuildings(t, heights);
    assert GeneratedLayout(t, heights, picks).buildings[i] == bs[i].(adSpots := GeneratedLayout(t, heights, picks).buildings[i].adSpots);
    assert GeneratedLayout(t, heights, picks).buildings[j] == bs[j].(adSpots := GeneratedLayout(t, heights, picks).buildings[j].adSpots);
    HeightInRange(t, heights[i]);
    PositionsDistinct(t, i, j, heights[i], heights[j]);
  }

  /**
   * Spot `k` stands on building `chosen[k]`, an existing building that no
   * other spot uses, at 70% of its height, and that building lists exactly
   * this spot; buildings without a spot list none.
   */
  lemma LayoutSpotsSound(t: SceneType, heights: seq<real>, picks: seq<real>)
    requires |heights| == t.buildingCount
    requires UnitDraws(picks) && |picks| == MinNat(t.adPositions, t.buildingCount)
    ensures var l := GeneratedLayout(t, heights, picks);
      var chosen := ChosenBuildings(t, picks);
      && |chosen| == |l.adSpots|
      && Distinct(chosen)
      && (forall k :: 0 <= k < |chosen| ==>
            && chosen[k] < |l.buildings|
            && l.adSpots[k].id == SpotId(k)
            && l.adSpots[k].buildingId == l.buildings[chosen[k]].id
            && l.buildings[chosen[k]].adSpots == [SpotId(k)]
            && l.adSpots[k].position == Vec3(l.buildings[chosen[k]].position.x,
                                             l.buildings[chosen[k]].size.height * 0.7,
                                             l.buildings[chosen[k]].position.z))
      && (forall j :: 0 <= j < |l.buildings| && j !in chosen ==> l.buildings[j].adSpots == [])
  {
    var bs := LayoutBuildings(t, heights);
    var chosen := ChosenBuildings(t, picks);
    AttachAt(bs, chosen);
  }

  /** Different spots hang on different buildings. */
  lemma SpotsOnDistinctBuildings(t: SceneType, heights: seq<real>, picks: seq<real>, k: nat, m: nat)
    requires |heights| == t.buildingCount
    requires UnitDraws(picks) && |picks| == MinNat(t.adPositions, t.buildingCount)
    requires k < m < |GeneratedLayout(t, heights, picks).adSpots|
    ensures GeneratedLayout(t, heights, picks).adSpots[k].buildingId != GeneratedLayout(t, heights, picks).adSpots[m].buildingId
  {
    var chosen := ChosenBuildings(t, picks);
    BuildingIdInjective(chosen[k], chosen[m]);
  }
}
