/** The weapon component of a character: equipping a weapon in the hand it is made for,
    the cooldown gate that decides whether an attack animation starts, and the
    critical-hit damage rule. The clock, health percentages and random rolls are
    parameters. */
module Weapons {
  import opened Scene

  /** The parts of a designer-authored weapon asset the component reads. */
  datatype WeaponConfig = WeaponConfig(
    rightHanded: bool,
    minTimeBetweenHits: real,
    attackClipLength: real)   // length of the weapon's attack animation clip

  datatype Hand = LeftHand | RightHand

  /** The character's state as far as this component sets it; the character's other
      states are opaque codes here. */
  datatype CharacterState = Attacking | OtherState(code: nat)

  /** One attack animation started: when, and the wait that was in force. */
  datatype Hit = Hit(time: real, wait: real)

  /** Damage dealt by one hit and whether it was critical (which also plays the
      critical-hit particle effect). */
  datatype Damage = Damage(amount: real, critical: bool)

  /** A weapon object instantiated in a hand. */
  class WeaponObject {
    const config: WeaponConfig
    const hand: Hand

    constructor (config: WeaponConfig, hand: Hand)
      ensures this.config == config && this.hand == hand
    {
      this.config := config;
      this.hand := hand;
    }
  }

  /** The hand a weapon is held in. */
  function HandFor(w: WeaponConfig): (h: Hand)
    ensures h == RightHand <==> w.rightHanded
    ensures h == LeftHand <==> !w.rightHanded
  {
    if w.rightHanded then RightHand else LeftHand
  }

  /** Whether enough time has passed since the last hit for another to start. */
  predicate CooldownElapsed(lastHitTime: real, now: real, timeToWait: real) {
    now - lastHitTime >= timeToWait
  }

  /** The damage of a normal attack, given the roll in [0, 1] and the random weapon
      damage: critical exactly when the roll does not exceed the critical chance, and
      then the base-plus-weapon damage scaled by the multiplier. */
  function NormalAttackDamage(roll: real, criticalHitChance: real, criticalHitMultiplier: real,
                              baseDamage: real, weaponDamage: int): (d: Damage)
    ensures d.critical <==> roll <= criticalHitChance
    ensures !d.critical ==> d.amount == baseDamage + weaponDamage as real
    ensures d.critical ==> d.amount == (baseDamage + weaponDamage as real) * criticalHitMultiplier
  {
    var isCriticalHit := roll <= criticalHitChance;
    var damageBeforeCritical := baseDamage + weaponDamage as real;
    if isCriticalHit then Damage(damageBeforeCritical * criticalHitMultiplier, true)
    else Damage(damageBeforeCritical, false)
  }

  /** A lower roll never deals less damage, when the multiplier does not shrink
      damage and the damage before the multiplier is not negative. */
  lemma LowerRollNeverWeaker(roll1: real, roll2: real, criticalHitChance: real, criticalHitMultiplier: real,
                             baseDamage: real, weaponDamage: int)
    requires roll1 <= roll2
    requires criticalHitMultiplier >= 1.0 && baseDamage + weaponDamage as real >= 0.0
    ensures NormalAttackDamage(roll1, criticalHitChance, criticalHitMultiplier, baseDamage, weaponDamage).amount >=
            NormalAttackDamage(roll2, criticalHitChance, criticalHitMultiplier, baseDamage, weaponDamage).amount
  {
    var before := baseDamage + weaponDamage as real;
    assert before * criticalHitMultiplier >= before * 1.0;
  }

  /** The attack history respects the cooldown: the first hit came at least its wait after
      the clock's start value, and every later hit at least its wait after the previous one. */
  predicate Spaced(hits: seq<Hit>, start: real) {
    (|hits| > 0 ==> hits[0].time - start >= hits[0].wait) &&
    (forall k :: 0 < k < |hits| ==> hits[k].time - hits[k - 1].time >= hits[k].wait)
  }

  /** With every wait at least w >= 0, any two attacks in the history lie at least w apart. */
  lemma {:induction false} SpacedPairs(hits: seq<Hit>, start: real, w: real, i: nat, j: nat)
    requires Spaced(hits, start)
    requires w >= 0.0 && forall k :: 0 <= k < |hits| ==> hits[k].wait >= w
    requires i < j < |hits|
    ensures hits[j].time - hits[i].time >= w
    decreases j - i
  {
    assert hits[j].time - hits[j - 1].time >= hits[j].wait;
    if i < j - 1 {
      SpacedPairs(hits, start, w, i, j - 1);
    }
  }

  class WeaponSystem {
    const criticalHitChance: real
    const criticalHitMultiplier: real
    var currentWeaponConfig: WeaponConfig
    var target: Option<ObjectId>
    var weaponObject: WeaponObject?
    var live: set<WeaponObject>     // weapon objects created here and not yet destroyed
    var pending: set<WeaponObject>  // destroyed during this frame; they go at the frame's end
    var attackClipLength: real       // length of the attack clip last installed in the animator
    var lastHitTime: real
    var characterState: CharacterState
    ghost var hits: seq<Hit>         // the attack animations started so far

    /** At most the current weapon object is alive and not awaiting destruction, and
        lastHitTime is the time of the last attack of a history that respects the cooldown. */
    ghost predicate Valid()
      reads this
    {
      (forall o :: o in live ==> o == weaponObject) &&
      (forall o :: o in pending ==> o !in live) &&
      Spaced(hits, 0.0) &&
      lastHitTime == (if hits == [] then 0.0 else hits[|hits| - 1].time)
    }

    /** The engine's null test: true of a missing object and of one whose destruction has
        taken effect, but not of one destroyed earlier in the current frame. */
    predicate WeaponGone()
      reads this
    {
      weaponObject == null || (weaponObject !in live && weaponObject !in pending)
    }

    /** The objects a destruction of the weapon object schedules: the object, if it is live. */
    function Retiring(): set<WeaponObject>
      reads this
    {
      if weaponObject != null && weaponObject in live then {weaponObject} else {}
    }

    /** The component as the editor creates it, before Start. */
    constructor (criticalHitChance: real, criticalHitMultiplier: real, weapon: WeaponConfig, state: CharacterState)
      ensures Valid() && WeaponGone() && live == {} && pending == {}
      ensures this.criticalHitChance == criticalHitChance && this.criticalHitMultiplier == criticalHitMultiplier
      ensures currentWeaponConfig == weapon && target == None && characterState == state
      ensures hits == [] && lastHitTime == 0.0 && attackClipLength == 0.0
    {
      this.criticalHitChance := criticalHitChance;
      this.criticalHitMultiplier := criticalHitMultiplier;
      currentWeaponConfig := weapon;
      target := None;
      weaponObject := null;
      live := {};
      pending := {};
      attackClipLength := 0.0;
      lastHitTime := 0.0;
      characterState := state;
      hits := [];
    }

    /** Start-up: equip the configured weapon and install its attack clip. */
    method Start()
      requires Valid()
      modifies this
      ensures Valid()
      ensures weaponObject != null && fresh(weaponObject) && live == {weaponObject}
      ensures pending == old(pending + Retiring())
      ensures weaponObject.config == currentWeaponConfig && weaponObject.hand == HandFor(currentWeaponConfig)
      ensures attackClipLength == currentWeaponConfig.attackClipLength
      ensures currentWeaponConfig == old(currentWeaponConfig) && target == old(target)
      ensures lastHitTime == old(lastHitTime) && hits == old(hits) && characterState == old(characterState)
    {
      PutWeaponInHand(currentWeaponConfig);
      attackClipLength := currentWeaponConfig.attackClipLength;
    }

    /** Equip a weapon: it becomes the current one, the previous weapon object is destroyed
        (at the frame's end) and a new one is created in the right hand for a right-handed
        weapon, else in the left, so exactly one weapon object is live and not awaiting
        destruction afterwards. */
    method PutWeaponInHand(weaponToUse: WeaponConfig)
      requires Valid()
      modifies this
      ensures Valid()
      ensures currentWeaponConfig == weaponToUse
      ensures weaponObject != null && fresh(weaponObject) && live == {weaponObject}
      ensures pending == old(pending + Retiring())
      ensures weaponObject.config == weaponToUse && weaponObject.hand == HandFor(weaponToUse)
      ensures target == old(target) && attackClipLength == old(attackClipLength)
      ensures lastHitTime == old(lastHitTime) && hits == old(hits) && characterState == old(characterState)
    {
      currentWeaponConfig := weaponToUse;
      var dominantHand;
      if currentWeaponConfig.rightHanded {
        dominantHand := RightHand;
      } else {
        dominantHand := LeftHand;
      }
      if weaponObject != null && weaponObject in live {
        live := live - {weaponObject};
        pending := pending + {weaponObject};
      }
      weaponObject := new WeaponObject(currentWeaponConfig, dominantHand);
      live := live + {weaponObject};
    }

    /** Destroy the weapon object. The destruction waits for the frame's end, so until then
        the null test answers as before; the field keeps the reference. */
    method DestroyWeaponObject()
      requires Valid()
      modifies this`live, this`pending
      ensures Valid() && live == {}
      ensures pending == old(pending + Retiring())
      ensures WeaponGone() == old(WeaponGone())
    {
      if weaponObject != null && weaponObject in live {
        live := live - {weaponObject};
        pending := pending + {weaponObject};
      }
    }

    /** The engine's end of frame: every destruction requested during the frame takes
        effect, after which the null test holds of a destroyed weapon object. */
    method EndOfFrame()
      requires Valid()
      modifies this`pending
      ensures Valid() && pending == {}
      ensures WeaponGone() == (weaponObject == null || weaponObject !in live)
    {
      pending := {};
    }

    /** Attack a target at time now. A missing weapon object is re-created first; the target
        is always recorded; an attack animation starts exactly when both sides are alive and
        the cooldown since the last hit (attack clip length plus the weapon's minimum time
        between hits) has elapsed, and then lastHitTime becomes now; a player character is
        put into the attacking state whatever the gate decided. */
    method AttackTarget(targetToAttack: ObjectId, attackerHealth: real, targetHealth: real,
                        now: real, attackerIsPlayer: bool) returns (fired: bool)
      requires Valid()
      modifies this
      ensures Valid()
      ensures target == Some(targetToAttack)
      ensures fired == (attackerHealth > 0.0 && targetHealth > 0.0 &&
                        CooldownElapsed(old(lastHitTime), now, old(attackClipLength) + old(currentWeaponConfig).minTimeBetweenHits))
      ensures lastHitTime == (if fired then now else old(lastHitTime))
      ensures hits == old(hits) + (if fired then [Hit(now, old(attackClipLength) + old(currentWeaponConfig).minTimeBetweenHits)] else [])
      ensures attackClipLength == (if fired then old(currentWeaponConfig).attackClipLength else old(attackClipLength))
      ensures characterState == (if attackerIsPlayer then Attacking else old(characterState))
      ensures currentWeaponConfig == old(currentWeaponConfig)
      ensures old(WeaponGone()) ==> weaponObject != null && fresh(weaponObject) && live == {weaponObject} &&
                                    weaponObject.config == currentWeaponConfig &&
                                    weaponObject.hand == HandFor(currentWeaponConfig)
      ensures !old(WeaponGone()) ==> weaponObject == old(weaponObject) && live == old(live)
      ensures pending == old(pending)
    {
      if WeaponGone() {
        PutWeaponInHand(currentWeaponConfig);
      }
      target := Some(targetToAttack);
      var attackerStillAlive := attackerHealth > 0.0;
      var targetStillAlive := targetHealth > 0.0;
      fired := false;
      if attackerStillAlive && targetStillAlive {
        var weaponHitPeriod := attackClipLength;
        var timeToWait := weaponHitPeriod + currentWeaponConfig.minTimeBetweenHits;
        if now - lastHitTime >= timeToWait {
          lastHitTime := now;
          hits := hits + [Hit(now, timeToWait)];
          // starting the attack animation re-installs the current weapon's clip
          attackClipLength := currentWeaponConfig.attackClipLength;
          fired := true;
        }
      }
      if attackerIsPlayer {
        characterState := Attacking;
      }
    }
  }
}
