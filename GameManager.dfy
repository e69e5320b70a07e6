/**
 * managers/GameManager.js: the chase-and-fight session. The rules are first
 * stated on values (a session view and step functions), then the manager
 * object's methods are proved to change their fields exactly as those
 * functions say. The camera, the trigonometry of `repositionEnemy` and the
 * ad-SDK calls of `update` are not part of this model.
 */
module Session {
  import opened Common
  import opened Config
  import opened SceneLayout
  import opened AdSlots
  import opened Characters
  import opened Scene

  /** `gameState`: 'INIT', 'PLAYING', 'FIGHTING', 'PAUSED' or 'OVER'. */
  datatype Phase = Init | Playing | Fighting | Paused | Over

  /** The rule-relevant state of a session. */
  datatype SessionView = SessionView(phase: Phase, score: int, lastUpdateTime: int,
                                     player: CharacterState, enemy: CharacterState)

  // ------------------------------------------------------------ repositioning

  /**
   * The three random draws of `repositionEnemy`: the building pick, the angle
   * (given by its cosine and sine, a unit vector) and the distance draw.
   */
  datatype Placement = Placement(pick: real, ux: real, uz: real, r: real)

  predicate PlacementOk(p: Placement) {
    0.0 <= p.pick < 1.0 && 0.0 <= p.r < 1.0 && p.ux * p.ux + p.uz * p.uz == 1.0
  }

  /** `30 + Math.random() * 50`. */
  function Reach(p: Placement): (d: real)
    ensures 0.0 <= p.r < 1.0 ==> 30.0 <= d < 80.0
  {
    30.0 + Fraction(p.r, 50.0)
  }

  /**
   * Where `repositionEnemy` puts the enemy: at distance Reach from a randomly
   * picked building, on the ground plane, keeping its height; nowhere new when
   * the scene has no buildings.
   */
  function Repositioned(pos: Vec3, buildings: seq<Building>, p: Placement): (v: Vec3)
    requires PlacementOk(p)
    ensures v.y == pos.y
    ensures buildings == [] ==> v == pos
  {
    if buildings == [] then pos
    else Around(buildings[PickIndex(p.pick, |buildings|)], pos.y, p)
  }

  /** `building.position + (cos, sin) * distance` on the ground plane, at height `y`. */
  function Around(b: Building, y: real, p: Placement): Vec3 {
    Vec3(b.position.x + p.ux * Reach(p), y, b.position.z + p.uz * Reach(p))
  }

  lemma UnitScaled(ux: real, uz: real, d: real)
    requires ux * ux + uz * uz == 1.0
    ensures (ux * d) * (ux * d) + (uz * d) * (uz * d) == d * d
  {
    assert (ux * d) * (ux * d) == (ux * ux) * (d * d);
    assert (uz * d) * (uz * d) == (uz * uz) * (d * d);
    assert (ux * ux) * (d * d) + (uz * uz) * (d * d) == (ux * ux + uz * uz) * (d * d);
  }

  /** The repositioned enemy stands between 30 and 80 units from the picked building. */
  lemma RepositionDistance(pos: Vec3, buildings: seq<Building>, p: Placement)
    requires PlacementOk(p) && buildings != []
    ensures var b := buildings[PickIndex(p.pick, |buildings|)];
      var d := Reach(p);
      && PlanarDistanceSquared(Repositioned(pos, buildings, p), b.position) == d * d
      && 30.0 <= d < 80.0
  {
    var b := buildings[PickIndex(p.pick, |buildings|)];
    var d := Reach(p);
    var v := Repositioned(pos, buildings, p);
    assert v.x - b.position.x == p.ux * d;
    assert v.z - b.position.z == p.uz * d;
    UnitScaled(p.ux, p.uz, d);
  }

  // ------------------------------------------------------------ session rules

  /** `(currentTime - lastUpdateTime) / 1000`, in seconds. */
  function DeltaSeconds(last: int, now: int): (dt: real)
    ensures last <= now ==> dt >= 0.0
  {
    ((now - last) as real) / 1000.0
  }

  /**
   * `getDistanceBetweenCharacters() <= CATCH_DISTANCE`, compared on squares:
   * both sides are non-negative, so this is the same test without the root.
   */
  predicate Caught(player: CharacterState, enemy: CharacterState) {
    PlanarDistanceSquared(player.position, enemy.position) <= CATCH_DISTANCE * CATCH_DISTANCE
  }

  /** `updateChasePhase(dt)`: recharge a gauge that is not full, then check for a catch. */
  function ChaseStep(v: SessionView, dt: real): SessionView {
    var p := if v.player.dashEnergy < MAX_DASH_ENERGY then Charged(v.player, dt * 10.0) else v.player;
    if Caught(p, v.enemy) then v.(player := AttackStarted(p), phase := Fighting)
    else v.(player := p)
  }

  /** `onFightingComplete(success)`: score, stop the combo, back to the chase with a moved enemy. */
  function Completed(v: SessionView, success: bool, buildings: seq<Building>, p: Placement): SessionView
    requires PlacementOk(p)
  {
    v.(score := v.score + (if success then SCORE_PER_GAME else 0),
       player := AttackStopped(v.player),
       phase := Playing,
       enemy := v.enemy.(position := Repositioned(v.enemy.position, buildings, p)))
  }

  /** The combo is complete: the player is attacking and has landed ATTACK_COUNT hits. */
  predicate ComboDone(player: CharacterState) {
    player.isAttacking && player.attackCount >= ATTACK_COUNT
  }

  /** `updateFightPhase`: a completed combo ends the fight successfully. */
  function FightStep(v: SessionView, buildings: seq<Building>, p: Placement): SessionView
    requires PlacementOk(p)
  {
    if ComboDone(v.player) then Completed(v, true, buildings, p) else v
  }

  /** The rule part of `update()` at time `now`. */
  function Ticked(v: SessionView, now: int, buildings: seq<Building>, p: Placement): SessionView
    requires PlacementOk(p)
  {
    var dt := DeltaSeconds(v.lastUpdateTime, now);
    var w := v.(lastUpdateTime := now);
    match v.phase
    case Playing => ChaseStep(w, dt)
    case Fighting => FightStep(w, buildings, p)
    case _ => w
  }

  /**
   * A chase tick recharges a gauge that is not full by ten units a second,
   * capped at 100, and turns into a fight exactly when the enemy is within
   * CATCH_DISTANCE, with a fresh combo.
   */
  lemma ChaseCatchesIffClose(v: SessionView, now: int, buildings: seq<Building>, p: Placement)
    requires PlacementOk(p) && v.phase == Playing
    ensures var r := Ticked(v, now, buildings, p);
      && (r.phase == Fighting <==> Caught(v.player, v.enemy))
      && (r.phase != Fighting ==> r.phase == Playing)
      && (r.phase == Fighting ==> r.player.isAttacking && r.player.attackCount == 0)
      && r.score == v.score && r.enemy == v.enemy && r.player.position == v.player.position
      && r.player.dashEnergy == (if v.player.dashEnergy < MAX_DASH_ENERGY
                                 then MinReal(MAX_DASH_ENERGY, v.player.dashEnergy + DeltaSeconds(v.lastUpdateTime, now) * 10.0)
                                 else v.player.dashEnergy)
  {
    var dt := DeltaSeconds(v.lastUpdateTime, now);
    var pl := if v.player.dashEnergy < MAX_DASH_ENERGY then Charged(v.player, dt * 10.0) else v.player;
    assert pl.position == v.player.position;
  }

  /**
   * A fight tick ends the fight exactly when the combo is done; it then adds
   * SCORE_PER_GAME once, stops the attack and clears its counter so the next
   * tick cannot score again, and moves the enemy.
   */
  lemma FightEndsIffComboDone(v: SessionView, now: int, buildings: seq<Building>, p: Placement)
    requires PlacementOk(p) && v.phase == Fighting
    ensures var r := Ticked(v, now, buildings, p);
      && (r.phase == Playing <==> ComboDone(v.player))
      && (r.phase != Playing ==> r == v.(lastUpdateTime := now))
      && (r.phase == Playing ==> r.score == v.score + SCORE_PER_GAME && !ComboDone(r.player)
                                 && !r.player.isAttacking && r.player.attackCount == 0
                                 && r.enemy.position == Repositioned(v.enemy.position, buildings, p))
  {
  }

  /** Outside the chase and the fight, a tick only moves the clock. */
  lemma IdleTickOnlyMovesClock(v: SessionView, now: int, buildings: seq<Building>, p: Placement)
    requires PlacementOk(p) && v.phase != Playing && v.phase != Fighting
    ensures Ticked(v, now, buildings, p) == v.(lastUpdateTime := now)
  {
  }

  // ------------------------------------------------------------ runs

  /**
   * What drives a session: the manager's own entry points plus the player's
   * hits, which reach the model through `addAttackCount` on the player.
   */
  datatype Event =
    | Start(now: int, p: Placement)
    | Tick(now: int, p: Placement)
    | Hit
    | Pause
    | Resume(now: int)
    | End

  predicate EventOk(e: Event) {
    match e
    case Start(_, p) => PlacementOk(p)
    case Tick(_, p) => PlacementOk(p)
    case _ => true
  }

  /** The session after one event. */
  function Step(v: SessionView, e: Event, buildings: seq<Building>): SessionView
    requires EventOk(e)
  {
    match e
    case Start(now, p) =>
      v.(phase := Playing, lastUpdateTime := now,
         enemy := v.enemy.(position := Repositioned(v.enemy.position, buildings, p)))
    case Tick(now, p) => Ticked(v, now, buildings, p)
    case Hit => v.(player := AttackCounted(v.player))
    case Pause => if v.phase == Playing || v.phase == Fighting then v.(phase := Paused) else v
    case Resume(now) => if v.phase == Paused then v.(phase := Playing, lastUpdateTime := now) else v
    case End => v.(phase := Over)
  }

  function Run(v: SessionView, events: seq<Event>, buildings: seq<Building>): SessionView
    requires forall i :: 0 <= i < |events| ==> EventOk(events[i])
    decreases |events|
  {
    if events == [] then v else Run(Step(v, events[0], buildings), events[1..], buildings)
  }

  /** The time an event carries, if any. */
  function EventTime(e: Event): Option<int> {
    match e
    case Start(now, _) => Some(now)
    case Tick(now, _) => Some(now)
    case Resume(now) => Some(now)
    case _ => None
  }

  /** The clock never goes back: every time an event carries is at least `from` and the times before it. */
  predicate ClockFrom(from: int, events: seq<Event>)
    decreases |events|
  {
    events == [] ||
    match EventTime(events[0])
    case None => ClockFrom(from, events[1..])
    case Some(t) => from <= t && ClockFrom(t, events[1..])
  }

  /**
   * The session invariant: the dash gauge is within [0, 100], the score is a
   * non-negative multiple of SCORE_PER_GAME, the hit counter is not negative
   * and a fight is always an attack.
   */
  predicate SessionOk(v: SessionView) {
    && EnergyInRange(v.player)
    && v.score >= 0 && v.score % SCORE_PER_GAME == 0
    && v.player.attackCount >= 0
    && (v.phase == Fighting ==> v.player.isAttacking)
  }

  lemma StepKeepsSessionOk(v: SessionView, e: Event, buildings: seq<Building>)
    requires EventOk(e) && SessionOk(v)
    requires EventTime(e).Some? ==> v.lastUpdateTime <= EventTime(e).value
    ensures SessionOk(Step(v, e, buildings))
    ensures Step(v, e, buildings).score >= v.score
    ensures EventTime(e).None? ==> Step(v, e, buildings).lastUpdateTime == v.lastUpdateTime
    ensures EventTime(e).Some? ==> Step(v, e, buildings).lastUpdateTime <= EventTime(e).value
  {
    if e.Tick? {
      var dt := DeltaSeconds(v.lastUpdateTime, e.now);
      assert dt * 10.0 >= 0.0;
    }
  }

  /**
   * Over any run with a clock that never goes back, the session invariant
   * holds throughout and the score never decreases.
   */
  lemma {:induction false} RunKeepsSessionOk(v: SessionView, events: seq<Event>, buildings: seq<Building>)
    requires forall i :: 0 <= i < |events| ==> EventOk(events[i])
    requires SessionOk(v) && ClockFrom(v.lastUpdateTime, events)
    ensures SessionOk(Run(v, events, buildings))
    ensures Run(v, events, buildings).score >= v.score
    decreases |events|
  {
    if events != [] {
      var e := events[0];
      StepKeepsSessionOk(v, e, buildings);
      var w := Step(v, e, buildings);
      ClockMonotone(v.lastUpdateTime, w.lastUpdateTime, events[1..], e);
      RunKeepsSessionOk(w, events[1..], buildings);
    }
  }

  lemma ClockMonotone(from: int, last: int, rest: seq<Event>, e: Event)
    requires ClockFrom(from, [e] + rest)
    requires EventTime(e).None? ==> last == from
    requires EventTime(e).Some? ==> last <= EventTime(e).value
    ensures ClockFrom(last, rest)
  {
    assert ([e] + rest)[1..] == rest;
    if EventTime(e).Some? {
      ClockLowered(EventTime(e).value, last, rest);
    }
  }

  lemma {:induction false} ClockLowered(from: int, lower: int, events: seq<Event>)
    requires lower <= from && ClockFrom(from, events)
    ensures ClockFrom(lower, events)
    decreases |events|
  {
    if events != [] && EventTime(events[0]).None? {
      ClockLowered(from, lower, events[1..]);
    }
  }

  // ------------------------------------------------------------ the manager object

  /** `new Character(options)`, seen through the rule state only. */
  method Spawn(options: map<string, string>, randomId: string) returns (c: Character)
    ensures fresh(c) && c.State() == CharacterState(ORIGIN, ORIGIN, 0.0, false, 0)
  {
    c := new Character(options, randomId);
  }

  class GameManager {
    var player: Character?
    var enemy: Character?
    var score: int
    var gameState: Phase
    var lastUpdateTime: int
    const sceneManager: SceneManager

    /** Both characters exist, are distinct, and the scene's ad table is sound. */
    predicate Valid()
      reads this, sceneManager
    {
      player != null && enemy != null && player != enemy && sceneManager.Valid()
    }

    function View(): SessionView
      reads this, player, enemy
      requires player != null && enemy != null
    {
      SessionView(gameState, score, lastUpdateTime, player.State(), enemy.State())
    }

    /** A new manager at time `now`: no characters, no score, INIT. */
    constructor(now: int)
      ensures player == null && enemy == null && score == 0 && gameState == Init && lastUpdateTime == now
      ensures fresh(sceneManager) && sceneManager.Valid() && sceneManager.currentScene == None
    {
      player := null;
      enemy := null;
      score := 0;
      gameState := Init;
      lastUpdateTime := now;
      sceneManager := new SceneManager();
    }

    /**
     * `initGame`: two new characters, score 0, INIT, then the scene. The
     * fields are reset before the scene type is looked up, so an unknown type
     * (where the source throws) still leaves the new characters in place.
     */
    method InitGame(playerOptions: map<string, string>, playerRandomId: string,
                    enemyOptions: map<string, string>, enemyRandomId: string,
                    sceneType: string := "city", heights: seq<real>, picks: seq<real>) returns (ok: bool)
      requires sceneManager.Valid()
      requires DrawsFit(sceneType, heights, picks)
      modifies this, sceneManager
      ensures Valid() && fresh(player) && fresh(enemy)
      ensures player.State() == CharacterState(ORIGIN, ORIGIN, 0.0, false, 0)
      ensures enemy.State() == CharacterState(ORIGIN, ORIGIN, 0.0, false, 0)
      ensures score == 0 && gameState == Init && lastUpdateTime == old(lastUpdateTime)
      ensures ok <==> FindSceneType(sceneType).Some?
      ensures ok ==> sceneManager.currentScene == FindSceneType(sceneType)
      ensures ok ==> Layout(sceneManager.buildings, sceneManager.adSpots)
                     == GeneratedLayout(sceneManager.currentScene.value, heights, picks)
      ensures !ok ==> sceneManager.currentScene == old(sceneManager.currentScene)
      ensures !ok ==> sceneManager.buildings == old(sceneManager.buildings)
      ensures !ok ==> sceneManager.adSpots == old(sceneManager.adSpots)
      ensures sceneManager.activeAds == old(sceneManager.activeAds)
    {
      NewRound(playerOptions, playerRandomId, enemyOptions, enemyRandomId);
      ok := sceneManager.InitScene(sceneType, heights, picks);
    }

    /** The first half of `initGame`: fresh characters, score 0, INIT. */
    method NewRound(playerOptions: map<string, string>, playerRandomId: string,
                    enemyOptions: map<string, string>, enemyRandomId: string)
      modifies this
      ensures fresh(player) && fresh(enemy) && player != null && enemy != null && player != enemy
      ensures player.State() == CharacterState(ORIGIN, ORIGIN, 0.0, false, 0)
      ensures enemy.State() == CharacterState(ORIGIN, ORIGIN, 0.0, false, 0)
      ensures score == 0 && gameState == Init && lastUpdateTime == old(lastUpdateTime)
    {
      var p := Spawn(playerOptions, playerRandomId);
      var e := Spawn(enemyOptions, enemyRandomId);
      player, enemy := p, e;
      score := 0;
      gameState := Init;
    }

    /** `startGame`: PLAYING from now on, with the enemy moved near a building. */
    method StartGame(now: int, p: Placement)
      requires Valid() && PlacementOk(p)
      modifies this, enemy`position
      ensures Valid() && player == old(player) && enemy == old(enemy)
      ensures View() == Step(old(View()), Start(now, p), sceneManager.buildings)
    {
      gameState := Playing;
      lastUpdateTime := now;
      RepositionEnemy(p);
    }

    /**
     * `update()` at time `now` with the ads to place: the rule step of the
     * current phase, then the scene's ad table is refreshed.
     */
    method Update(now: int, ads: seq<SpotAd>, p: Placement)
      requires Valid() && PlacementOk(p)
      modifies this, player`dashEnergy, player`isAttacking, player`attackCount, enemy`position, sceneManager`activeAds
      ensures Valid() && player == old(player) && enemy == old(enemy)
      ensures View() == Ticked(old(View()), now, sceneManager.buildings, p)
      ensures sceneManager.activeAds == UpdatedAds(old(sceneManager.activeAds), sceneManager.adSpots, ads, now)
    {
      var deltaTime := DeltaSeconds(lastUpdateTime, now);
      lastUpdateTime := now;
      if gameState == Playing {
        UpdateChasePhase(deltaTime);
      } else if gameState == Fighting {
        UpdateFightPhase(p);
      }
      sceneManager.UpdateAds(ads, now);
    }

    /** `updateChasePhase(dt)`. */
    method UpdateChasePhase(deltaTime: real)
      requires Valid()
      modifies this, player`dashEnergy, player`isAttacking, player`attackCount
      ensures Valid() && player == old(player) && enemy == old(enemy)
      ensures View() == ChaseStep(old(View()), deltaTime)
    {
      if player.dashEnergy < MAX_DASH_ENERGY {
        player.AddDashEnergy(deltaTime * 10.0);
      }
      var distanceSquared := DistanceSquared();
      if distanceSquared <= CATCH_DISTANCE * CATCH_DISTANCE {
        StartFighting();
      }
    }

    /** `updateFightPhase`. */
    method UpdateFightPhase(p: Placement)
      requires Valid() && PlacementOk(p)
      modifies this, player`isAttacking, player`attackCount, enemy`position
      ensures Valid() && player == old(player) && enemy == old(enemy)
      ensures View() == FightStep(old(View()), sceneManager.buildings, p)
    {
      if player.isAttacking {
        if player.attackCount >= ATTACK_COUNT {
          OnFightingComplete(true, p);
        }
      }
    }

    /** `startFighting`. */
    method StartFighting()
      requires Valid()
      modifies this`gameState, player`isAttacking, player`attackCount
      ensures Valid()
      ensures View() == old(View()).(phase := Fighting, player := AttackStarted(old(player.State())))
    {
      gameState := Fighting;
      player.StartAttack();
    }

    /** `onFightingComplete(success)`. */
    method OnFightingComplete(success: bool, p: Placement)
      requires Valid() && PlacementOk(p)
      modifies this, player`isAttacking, player`attackCount, enemy`position
      ensures Valid() && player == old(player) && enemy == old(enemy)
      ensures View() == Completed(old(View()), success, sceneManager.buildings, p)
    {
      if success {
        AddScore(SCORE_PER_GAME);
      }
      player.StopAttack();
      gameState := Playing;
      RepositionEnemy(p);
    }

    /** `repositionEnemy`: nothing happens in a scene without buildings. */
    method RepositionEnemy(p: Placement)
      requires Valid() && PlacementOk(p)
      modifies enemy`position
      ensures enemy.position == Repositioned(old(enemy.position), sceneManager.buildings, p)
    {
      var buildings := sceneManager.buildings;
      if |buildings| == 0 {
        assert buildings == [];
        return;
      }
      var building := buildings[PickIndex(p.pick, |buildings|)];
      enemy.position := Around(building, enemy.position.y, p);
    }

    /**
     * `getDistanceBetweenCharacters()`, squared. The second `ensures` only
     * bridges `UpdateChasePhase` to `ChaseStep`, whose catch rule is proved in
     * `ChaseCatchesIffClose`.
     */
    function DistanceSquared(): (d: real)
      reads this, player, enemy
      requires player != null && enemy != null
      ensures d >= 0.0
      ensures d <= CATCH_DISTANCE * CATCH_DISTANCE <==> Caught(player.State(), enemy.State())
    {
      PlanarDistanceSquared(player.position, enemy.position)
    }

    /** `addScore(amount)`. */
    method AddScore(amount: int)
      modifies this`score
      ensures score == old(score) + amount
    {
      score := score + amount;
    }

    /** `pauseGame`: only a chase or a fight can be paused. */
    method PauseGame()
      requires Valid()
      modifies this`gameState
      ensures View() == Step(old(View()), Pause, sceneManager.buildings)
    {
      if gameState == Playing || gameState == Fighting {
        gameState := Paused;
      }
    }

    /** `resumeGame`: a paused session resumes as a chase, whatever it was before. */
    method ResumeGame(now: int)
      requires Valid()
      modifies this`gameState, this`lastUpdateTime
      ensures View() == Step(old(View()), Resume(now), sceneManager.buildings)
    {
      if gameState == Paused {
        gameState := Playing;
        lastUpdateTime := now;
      }
    }

    /** `endGame`. */
    method EndGame()
      requires Valid()
      modifies this`gameState
      ensures View() == Step(old(View()), End, sceneManager.buildings)
    {
      gameState := Over;
    }
  }
}
