/**
 * A stick-figure character (models/Character.js): position, rotation, dash
 * energy, attack state and the face/outfit appearance table, all updated in place.
 */
module Characters {
  import opened Common
  import opened Config

  /** category ("face", "outfit") to part to value; `None` is JavaScript's null. */
  type Appearance = map<string, map<string, Option<string>>>

  /** `options[key] || fallback`: an absent or empty option takes the fallback. */
  function OptionOr(options: map<string, string>, key: string, fallback: Option<string>): Option<string> {
    if key in options && options[key] != "" then Some(options[key]) else fallback
  }

  /** The appearance a new character gets from its construction options. */
  function InitialAppearance(options: map<string, string>): (a: Appearance)
    ensures a.Keys == {"face", "outfit"}
    ensures a["face"].Keys == {"earrings", "eyebrows", "nose", "chin", "ears", "mouth"}
    ensures a["outfit"].Keys == {"hat", "top", "bottom", "shoes"}
  {
    var face := map[
      "earrings" := OptionOr(options, "earrings", None),
      "eyebrows" := OptionOr(options, "eyebrows", Some("default")),
      "nose" := OptionOr(options, "nose", Some("default")),
      "chin" := OptionOr(options, "chin", Some("default")),
      "ears" := OptionOr(options, "ears", Some("default")),
      "mouth" := OptionOr(options, "mouth", Some("default"))];
    var outfit := map[
      "hat" := OptionOr(options, "hat", None),
      "top" := OptionOr(options, "top", Some("default")),
      "bottom" := OptionOr(options, "bottom", Some("default")),
      "shoes" := OptionOr(options, "shoes", Some("default"))];
    map["face" := face, "outfit" := outfit]
  }

  /** `updateAppearance`: only an existing part of an existing category is overwritten. */
  function Restyled(a: Appearance, category: string, part: string, value: Option<string>): (r: Appearance)
    ensures r.Keys == a.Keys
    ensures forall c :: c in a ==> r[c].Keys == a[c].Keys
    ensures category in a && part in a[category] ==> r[category][part] == value
    ensures forall c, p :: c in a && p in a[c] && (c != category || p != part) ==> r[c][p] == a[c][p]
    ensures !(category in a && part in a[category]) ==> r == a
  {
    if category in a && part in a[category] then a[category := a[category][part := value]] else a
  }

  /** The part of a character that the game rules read and write. */
  datatype CharacterState = CharacterState(
    position: Vec3,
    rotation: Vec3,
    dashEnergy: real,
    isAttacking: bool,
    attackCount: int)

  /** Dash energy within its range. */
  predicate EnergyInRange(s: CharacterState) {
    0.0 <= s.dashEnergy <= MAX_DASH_ENERGY
  }

  /** `addDashEnergy(amount)`: energy grows by `amount` but is capped at 100. */
  function Charged(s: CharacterState, amount: real): (r: CharacterState)
    ensures r == s.(dashEnergy := r.dashEnergy)
    ensures r.dashEnergy <= MAX_DASH_ENERGY
    ensures s.dashEnergy + amount <= MAX_DASH_ENERGY ==> r.dashEnergy == s.dashEnergy + amount
    ensures s.dashEnergy + amount > MAX_DASH_ENERGY ==> r.dashEnergy == MAX_DASH_ENERGY
    ensures EnergyInRange(s) && amount >= 0.0 ==> EnergyInRange(r) && r.dashEnergy >= s.dashEnergy
  {
    s.(dashEnergy := MinReal(MAX_DASH_ENERGY, s.dashEnergy + amount))
  }

  /** `dash()`: succeeds exactly on a full gauge, which it empties; otherwise nothing changes. */
  function Dashed(s: CharacterState): (r: (CharacterState, bool))
    ensures r.1 <==> s.dashEnergy >= MAX_DASH_ENERGY
    ensures r.1 ==> r.0 == s.(dashEnergy := 0.0)
    ensures !r.1 ==> r.0 == s
    ensures EnergyInRange(s) ==> EnergyInRange(r.0)
  {
    if s.dashEnergy >= MAX_DASH_ENERGY then (s.(dashEnergy := 0.0), true) else (s, false)
  }

  /** `startAttack()`: attacking with a fresh hit counter. */
  function AttackStarted(s: CharacterState): CharacterState {
    s.(isAttacking := true, attackCount := 0)
  }

  /** `addAttackCount()`: one more landed hit. */
  function AttackCounted(s: CharacterState): CharacterState {
    s.(attackCount := s.attackCount + 1)
  }

  /** `stopAttack()`: not attacking, counter cleared. */
  function AttackStopped(s: CharacterState): CharacterState {
    s.(isAttacking := false, attackCount := 0)
  }

  /** The state after starting an attack and landing `hits` hits. */
  function AfterHits(s: CharacterState, hits: nat): CharacterState {
    if hits == 0 then AttackStarted(s) else AttackCounted(AfterHits(s, hits - 1))
  }

  /**
   * Starting an attack and landing `hits` hits leaves the counter at exactly
   * `hits`, changes nothing else, and the combo is complete from hit 15 on.
   */
  lemma {:induction false} HitsCounted(s: CharacterState, hits: nat)
    ensures AfterHits(s, hits) == s.(isAttacking := true, attackCount := hits)
    ensures AfterHits(s, hits).attackCount >= ATTACK_COUNT <==> hits >= 15
  {
    if hits > 0 {
      HitsCounted(s, hits - 1);
    }
  }

  class Character {
    var id: string
    var position: Vec3
    var rotation: Vec3
    var speed: real
    var dashEnergy: real
    var isAttacking: bool
    var attackCount: int
    var appearance: Appearance

    /** The rule-relevant fields as one value. */
    function State(): CharacterState
      reads this
    {
      CharacterState(position, rotation, dashEnergy, isAttacking, attackCount)
    }

    /** A new character: at the origin, unrotated, empty gauge, not attacking. */
    constructor (options: map<string, string>, randomId: string)
      ensures id == (if "id" in options && options["id"] != "" then options["id"] else randomId)
      ensures position == ORIGIN && rotation == ORIGIN && speed == MOVE_SPEED
      ensures dashEnergy == 0.0 && !isAttacking && attackCount == 0
      ensures appearance == InitialAppearance(options)
    {
      id := if "id" in options && options["id"] != "" then options["id"] else randomId;
      position := ORIGIN;
      rotation := ORIGIN;
      speed := MOVE_SPEED;
      dashEnergy := 0.0;
      isAttacking := false;
      attackCount := 0;
      appearance := InitialAppearance(options);
    }

    method UpdatePosition(x: real, y: real, z: real)
      modifies this`position
      ensures position == Vec3(x, y, z)
    {
      position := position.(x := x);
      position := position.(y := y);
      position := position.(z := z);
    }

    method UpdateRotation(x: real, y: real, z: real)
      modifies this`rotation
      ensures rotation == Vec3(x, y, z)
    {
      rotation := rotation.(x := x);
      rotation := rotation.(y := y);
      rotation := rotation.(z := z);
    }

    method AddDashEnergy(amount: real)
      modifies this`dashEnergy
      ensures State() == Charged(old(State()), amount)
    {
      dashEnergy := MinReal(MAX_DASH_ENERGY, dashEnergy + amount);
    }

    method Dash() returns (dashed: bool)
      modifies this`dashEnergy
      ensures (State(), dashed) == Dashed(old(State()))
    {
      if dashEnergy >= MAX_DASH_ENERGY {
        dashEnergy := 0.0;
        return true;
      }
      return false;
    }

    method StartAttack()
      modifies this`isAttacking, this`attackCount
      ensures State() == AttackStarted(old(State()))
    {
      isAttacking := true;
      attackCount := 0;
    }

    /** Returns whether the combo is now complete. */
    method AddAttackCount() returns (complete: bool)
      modifies this`attackCount
      ensures State() == AttackCounted(old(State()))
      ensures complete <==> attackCount >= ATTACK_COUNT
    {
      attackCount := attackCount + 1;
      return attackCount >= ATTACK_COUNT;
    }

    method StopAttack()
      modifies this`isAttacking, this`attackCount
      ensures State() == AttackStopped(old(State()))
    {
      isAttacking := false;
      attackCount := 0;
    }

    method UpdateAppearance(category: string, part: string, value: Option<string>)
      modifies this`appearance
      ensures appearance == Restyled(old(appearance), category, part, value)
    {
      if category in appearance && part in appearance[category] {
        appearance := appearance[category := appearance[category][part := value]];
      }
    }
  }
}
