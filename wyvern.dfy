/** The wyvern boss: a four-state machine stepped once per frame, the clamp that keeps
    its fire radius outside its melee radius, the melee-attack selector and the
    classification of its body parts at start-up. Every engine quantity (health,
    distances, frame time, "skeleton group dead") arrives as a parameter. */
module Wyvern {
  import opened Scene

  /** The boss's behaviour states; Idle is the enum's zero value. */
  datatype State = Idle | Attacking | Flying | Falling

  /** The four melee attacks the selector chooses between. */
  datatype MeleeAttack = Bite | RightWing | LeftWing | SwoopClaw

  /** The engine side effects one frame starts, as tags.
      StartFlying stands for showing the skeleton group, enabling the flying animation and
      starting the flying coroutine; StartFalling for starting the falling coroutine;
      Land for stopping all coroutines and disabling the flying animation. */
  datatype Action = NoAction | FireAttack | Melee(attack: MeleeAttack) | StartFlying | StartFalling | Land

  /** Distances from the player to the wyvern's head, left wing, right wing and root. The
      root distance is the frame's distanceToPlayer in the engine; it is a separate input
      here, so every property below also covers frames where the two differ. */
  datatype MeleeDistances = MeleeDistances(head: real, leftWing: real, rightWing: real, swoop: real)

  /** What the engine supplies to one Update call. */
  datatype Frame = Frame(
    wyvernHealth: real,      // the wyvern's health as a percentage
    playerHealth: real,      // the player's health as a percentage
    distanceToPlayer: real,
    deltaTime: real,
    skeletonGroupDead: bool, // every skeleton of the current group has died
    bodyToRoot: real,        // distance from the animated body to the component's root
    melee: MeleeDistances)

  /** The designer-set radii and ground-time limit. */
  datatype Config = Config(attackingRadius: real, fireAttackingRadius: real, timeOnPlanLimited: real)

  /** The per-frame mutable part of the boss. */
  datatype Brain = Brain(state: State, timeOnPlan: real, flyingSpeed: real)

  datatype StepResult = StepResult(brain: Brain, action: Action)

  const MinFireMargin: real := 5.0
  const MaxFireMargin: real := 40.0

  /** The state machine's assumption: the fire ring lies strictly outside the melee ring. */
  predicate ValidConfig(c: Config) {
    c.fireAttackingRadius > c.attackingRadius
  }

  function Dist(x: real, y: real): real {
    if x <= y then y - x else x - y
  }

  /** The engine's clamp: value moved into [lo, hi] when lo <= hi. */
  function Clamp(value: real, lo: real, hi: real): real {
    if value < lo then lo else if value > hi then hi else value
  }

  /** The fire radius OnValidate stores: the point of [attacking + 5, attacking + 40]
      nearest to the radius the designer typed, hence strictly beyond the melee radius. */
  function ClampFireRadius(fire: real, attacking: real): (r: real)
    ensures attacking + MinFireMargin <= r <= attacking + MaxFireMargin
    ensures forall x :: attacking + MinFireMargin <= x <= attacking + MaxFireMargin ==> Dist(r, fire) <= Dist(x, fire)
    ensures r > attacking
  {
    Clamp(fire, attacking + MinFireMargin, attacking + MaxFireMargin)
  }

  /** Clamping twice changes nothing more than clamping once. */
  lemma ClampFireRadiusIdempotent(fire: real, attacking: real)
    ensures ClampFireRadius(ClampFireRadius(fire, attacking), attacking) == ClampFireRadius(fire, attacking)
  {
  }

  /** The alive test: both the wyvern and the player have health left. */
  function AliveToContinue(wyvernHealth: real, playerHealth: real): (ok: bool)
    ensures ok ==> wyvernHealth > 0.0 && playerHealth > 0.0
    ensures !ok ==> wyvernHealth <= 0.0 || playerHealth <= 0.0
  {
    if wyvernHealth <= 0.0 then false
    else if playerHealth <= 0.0 then false
    else true
  }

  /** The melee selector as written: each branch tests its own guard in order. */
  function ChooseMeleeAttack(d: MeleeDistances): (a: MeleeAttack)
    ensures a == Bite <==> d.head < d.rightWing && d.head < d.leftWing && d.head < d.swoop
    ensures a == RightWing <==> a != Bite && d.rightWing < d.leftWing && d.head < d.swoop
    ensures a == LeftWing <==> a != Bite && a != RightWing && d.leftWing < d.swoop
    ensures a == SwoopClaw <==> a != Bite && a != RightWing && a != LeftWing
  {
    if d.head < d.rightWing && d.head < d.leftWing && d.head < d.swoop then Bite
    else if d.rightWing < d.leftWing && d.head < d.swoop then RightWing
    else if d.leftWing < d.swoop then LeftWing
    else SwoopClaw
  }

  /** The distance of the body part an attack strikes with. */
  function PartDistance(d: MeleeDistances, a: MeleeAttack): real {
    match a
    case Bite => d.head
    case RightWing => d.rightWing
    case LeftWing => d.leftWing
    case SwoopClaw => d.swoop
  }

  /** The selector as written does not always strike with the part nearest the player:
      with the right wing nearest but the head no nearer than the root, it falls
      through to a left-wing attack. */
  lemma ChooseMeleeAttackMissesNearestRightWing()
    ensures var d := MeleeDistances(10.0, 2.0, 1.0, 5.0);
            ChooseMeleeAttack(d) == LeftWing && PartDistance(d, RightWing) < PartDistance(d, ChooseMeleeAttack(d))
  {
  }

  /** The selector with the right-wing guard comparing the right wing against the root,
      as the other branches compare their own part. It always strikes with a nearest part. */
  function NearestPartAttack(d: MeleeDistances): (a: MeleeAttack)
    ensures PartDistance(d, a) <= d.head && PartDistance(d, a) <= d.leftWing
    ensures PartDistance(d, a) <= d.rightWing && PartDistance(d, a) <= d.swoop
    ensures a == Bite <==> d.head < d.rightWing && d.head < d.leftWing && d.head < d.swoop
  {
    if d.head < d.rightWing && d.head < d.leftWing && d.head < d.swoop then Bite
    else if d.rightWing < d.leftWing && d.rightWing < d.swoop then RightWing
    else if d.leftWing < d.swoop then LeftWing
    else SwoopClaw
  }

  /** The two selectors disagree exactly when the right wing is nearer than both the left
      wing and the root while the head is no nearer than the root. */
  lemma SelectorsDisagreeExactly(d: MeleeDistances)
    ensures NearestPartAttack(d) != ChooseMeleeAttack(d) <==>
            d.head >= d.swoop && d.rightWing < d.leftWing && d.rightWing < d.swoop
  {
  }

  /** The edges of the state machine: Idle to Attacking and back, Attacking to Flying,
      Flying to Falling, Falling to Idle. */
  predicate Edge(from: State, to: State) {
    (from == Idle && to == Attacking) || (from == Attacking && to == Idle) ||
    (from == Attacking && to == Flying) || (from == Flying && to == Falling) ||
    (from == Falling && to == Idle)
  }

  /** One frame of Update, as a function of the configuration, the boss's state before the
      frame and what the engine reports. A frame either keeps the state or follows one edge,
      and each engine action except the attacks is started exactly by its own edge. */
  function Step(c: Config, b: Brain, f: Frame): (r: StepResult)
    ensures r.brain.state == b.state || Edge(b.state, r.brain.state)
    ensures r.action == StartFlying <==> b.state == Attacking && r.brain.state == Flying
    ensures r.action == StartFalling <==> b.state == Flying && r.brain.state == Falling
    ensures r.action == Land <==> b.state == Falling && r.brain.state == Idle
    ensures (r.action == FireAttack || r.action.Melee?) ==> b.state == Attacking && r.brain.state == Attacking
  {
    if !AliveToContinue(f.wyvernHealth, f.playerHealth) then StepResult(b, NoAction)
    else match b.state
      case Attacking =>
        if b.timeOnPlan >= c.timeOnPlanLimited then
          // the timer is reset, then the frame time is added; starting the flying
          // coroutine zeroes the flying speed before its first suspension
          StepResult(Brain(Flying, 0.0 + f.deltaTime, 0.0), StartFlying)
        else
          var t := b.timeOnPlan + f.deltaTime;
          if f.distanceToPlayer >= c.fireAttackingRadius then StepResult(Brain(Idle, t, b.flyingSpeed), NoAction)
          else if f.distanceToPlayer >= c.attackingRadius then StepResult(Brain(Attacking, t, b.flyingSpeed), FireAttack)
          else StepResult(Brain(Attacking, t, b.flyingSpeed), Melee(ChooseMeleeAttack(f.melee)))
      case Flying =>
        // starting the falling coroutine zeroes the flying speed before the increment
        if f.skeletonGroupDead then StepResult(Brain(Falling, b.timeOnPlan, 0.0 + f.deltaTime / 2.0), StartFalling)
        else StepResult(Brain(Flying, b.timeOnPlan, b.flyingSpeed + f.deltaTime / 2.0), NoAction)
      case Falling =>
        var speed := b.flyingSpeed + f.deltaTime * 0.75;
        if f.bodyToRoot <= 1.0 then StepResult(Brain(Idle, b.timeOnPlan, speed), Land)
        else StepResult(Brain(Falling, b.timeOnPlan, speed), NoAction)
      case Idle =>
        if f.distanceToPlayer <= c.fireAttackingRadius || f.distanceToPlayer <= c.attackingRadius
        then StepResult(Brain(Attacking, b.timeOnPlan, b.flyingSpeed), NoAction)
        else StepResult(b, NoAction)
  }

  /** With either side dead, a frame changes nothing and starts nothing. */
  lemma StepWhenDead(c: Config, b: Brain, f: Frame)
    requires f.wyvernHealth <= 0.0 || f.playerHealth <= 0.0
    ensures Step(c, b, f) == StepResult(b, NoAction)
  {
  }

  /** From Idle the boss starts attacking exactly when the player is within the fire radius;
      otherwise it stays idle. The ground timer is untouched either way. */
  lemma StepFromIdle(c: Config, b: Brain, f: Frame)
    requires ValidConfig(c) && b.state == Idle
    requires AliveToContinue(f.wyvernHealth, f.playerHealth)
    ensures Step(c, b, f).brain.state == (if f.distanceToPlayer <= c.fireAttackingRadius then Attacking else Idle)
    ensures Step(c, b, f).brain.timeOnPlan == b.timeOnPlan
    ensures Step(c, b, f).action == NoAction
  {
  }

  /** In Attacking the ground-time limit wins over every distance: the boss takes off and
      the timer ends the frame equal to the frame time. */
  lemma StepGroundTimeLimit(c: Config, b: Brain, f: Frame)
    requires b.state == Attacking && b.timeOnPlan >= c.timeOnPlanLimited
    requires AliveToContinue(f.wyvernHealth, f.playerHealth)
    ensures Step(c, b, f).brain.state == Flying
    ensures Step(c, b, f).brain.timeOnPlan == f.deltaTime
    ensures Step(c, b, f).action == StartFlying
  {
  }

  /** In Attacking below the limit the distance decides: out of fire range the boss goes
      idle, in the fire ring it breathes fire, inside the melee radius it strikes; the
      timer grows by exactly the frame time. */
  lemma StepAttackingBelowLimit(c: Config, b: Brain, f: Frame)
    requires b.state == Attacking && b.timeOnPlan < c.timeOnPlanLimited
    requires AliveToContinue(f.wyvernHealth, f.playerHealth)
    ensures Step(c, b, f).brain.timeOnPlan == b.timeOnPlan + f.deltaTime
    ensures f.distanceToPlayer >= c.fireAttackingRadius ==>
              Step(c, b, f).brain.state == Idle && Step(c, b, f).action == NoAction
    ensures c.attackingRadius <= f.distanceToPlayer < c.fireAttackingRadius ==>
              Step(c, b, f).brain.state == Attacking && Step(c, b, f).action == FireAttack
    ensures f.distanceToPlayer < c.attackingRadius && f.distanceToPlayer < c.fireAttackingRadius ==>
              Step(c, b, f).brain.state == Attacking && Step(c, b, f).action == Melee(ChooseMeleeAttack(f.melee))
  {
  }

  /** Only the Attacking state touches the ground timer. */
  lemma StepTimerOnlyOnGround(c: Config, b: Brain, f: Frame)
    requires b.state != Attacking
    ensures Step(c, b, f).brain.timeOnPlan == b.timeOnPlan
  {
  }

  /** Airborne states persist until their one exit: Flying falls exactly when the skeleton
      group is dead, Falling lands exactly when the body is within one unit of the root. */
  lemma StepAirborne(c: Config, b: Brain, f: Frame)
    requires AliveToContinue(f.wyvernHealth, f.playerHealth)
    ensures b.state == Flying ==>
              Step(c, b, f).brain.state == (if f.skeletonGroupDead then Falling else Flying)
    ensures b.state == Falling ==>
              Step(c, b, f).brain.state == (if f.bodyToRoot <= 1.0 then Idle else Falling)
  {
  }

  /** The boss's state after a sequence of frames. */
  function Run(c: Config, b: Brain, frames: seq<Frame>): Brain
    decreases |frames|
  {
    if frames == [] then b else Run(c, Step(c, b, frames[0]).brain, frames[1..])
  }

  /** As long as the wyvern or the player is dead, no number of frames changes anything. */
  lemma {:induction false} RunWhileDead(c: Config, b: Brain, frames: seq<Frame>)
    requires forall i :: 0 <= i < |frames| ==> !AliveToContinue(frames[i].wyvernHealth, frames[i].playerHealth)
    ensures Run(c, b, frames) == b
    decreases |frames|
  {
    if frames != [] {
      RunWhileDead(c, b, frames[1..]);
    }
  }

  /** The boss never stays on the ground much past its limit: with frame times in
      [0, maxDelta] the ground timer stays within [0, timeOnPlanLimited + maxDelta]. */
  lemma {:induction false} GroundTimeBounded(c: Config, b: Brain, frames: seq<Frame>, maxDelta: real)
    requires c.timeOnPlanLimited >= 0.0
    requires forall i :: 0 <= i < |frames| ==> 0.0 <= frames[i].deltaTime <= maxDelta
    requires 0.0 <= b.timeOnPlan <= c.timeOnPlanLimited + maxDelta
    ensures 0.0 <= Run(c, b, frames).timeOnPlan <= c.timeOnPlanLimited + maxDelta
    decreases |frames|
  {
    if frames != [] {
      var next := Step(c, b, frames[0]).brain;
      assert 0.0 <= next.timeOnPlan <= c.timeOnPlanLimited + maxDelta;
      GroundTimeBounded(c, next, frames[1..], maxDelta);
    }
  }

  const WingTag: string := "WyvernWing"
  const HeadTag: string := "WyvernHead"

  /** A body part found under the wyvern at start-up: its tag, its local z and its world position. */
  datatype BodyPart = BodyPart(tag: string, localZ: real, position: Vec3)

  /** Which position field a body part feeds. */
  datatype Slot = LeftWingSlot | RightWingSlot | HeadSlot | NoSlot

  /** A wing with positive local z is the left wing, any other wing the right one. */
  function SlotOf(p: BodyPart): Slot {
    if p.tag == WingTag then (if p.localZ > 0.0 then LeftWingSlot else RightWingSlot)
    else if p.tag == HeadTag then HeadSlot
    else NoSlot
  }

  /** The index of the last part feeding a slot, or -1 when none does. */
  function LastIndex(parts: seq<BodyPart>, slot: Slot): (k: int)
    ensures -1 <= k < |parts|
    ensures k >= 0 ==> SlotOf(parts[k]) == slot
    ensures forall j :: k < j < |parts| ==> SlotOf(parts[j]) != slot
    decreases |parts|
  {
    if parts == [] then -1
    else if SlotOf(parts[|parts| - 1]) == slot then |parts| - 1
    else
      var prefix := parts[..|parts| - 1];
      assert forall j :: 0 <= j < |prefix| ==> prefix[j] == parts[j];
      LastIndex(prefix, slot)
  }

  /** The position the classification leaves in a slot. */
  function LastPosition(parts: seq<BodyPart>, slot: Slot, before: Vec3): Vec3 {
    var k := LastIndex(parts, slot);
    if k < 0 then before else parts[k].position
  }

  /** A slot ends with the position of the last part feeding it, or the value the field
      held before when no part does. */
  lemma LastPositionIsLastFeeder(parts: seq<BodyPart>, slot: Slot, before: Vec3)
    ensures (forall j :: 0 <= j < |parts| ==> SlotOf(parts[j]) != slot) ==> LastPosition(parts, slot, before) == before
    ensures (exists j :: 0 <= j < |parts| && SlotOf(parts[j]) == slot) ==>
              exists i :: 0 <= i < |parts| && SlotOf(parts[i]) == slot && LastPosition(parts, slot, before) == parts[i].position &&
                          forall j :: i < j < |parts| ==> SlotOf(parts[j]) != slot
  {
    var k := LastIndex(parts, slot);
    if k >= 0 {
      assert SlotOf(parts[k]) == slot && LastPosition(parts, slot, before) == parts[k].position;
    }
  }

  /** Classifying one more part replaces a slot's position exactly when the part feeds it. */
  lemma LastPositionSnoc(parts: seq<BodyPart>, p: BodyPart, slot: Slot, before: Vec3)
    ensures LastPosition(parts + [p], slot, before) ==
            if SlotOf(p) == slot then p.position else LastPosition(parts, slot, before)
  {
    assert (parts + [p])[..|parts|] == parts;
  }

  class WyvernBehavior {
    var attackingRadius: real
    var fireAttackingRadius: real
    var timeOnPlanLimited: real
    var currentState: State
    var timeOnPlan: real
    var flyingSpeed: real
    var destroyed: bool        // the component has destroyed itself
    var wingLeftPos: Vec3
    var wingRightPos: Vec3
    var headPos: Vec3

    function Cfg(): Config
      reads this
    {
      Config(attackingRadius, fireAttackingRadius, timeOnPlanLimited)
    }

    function Mind(): Brain
      reads this
    {
      Brain(currentState, timeOnPlan, flyingSpeed)
    }

    /** The component as the editor creates it, with the designer defaults. */
    constructor ()
      ensures Cfg() == Config(10.0, 20.0, 10.0) && ValidConfig(Cfg())
      ensures Mind() == Brain(Idle, 0.0, 10.0) && !destroyed
      ensures wingLeftPos == Origin && wingRightPos == Origin && headPos == Origin
    {
      attackingRadius, fireAttackingRadius, timeOnPlanLimited := 10.0, 20.0, 10.0;
      currentState, timeOnPlan, flyingSpeed := Idle, 0.0, 10.0;
      destroyed := false;
      wingLeftPos, wingRightPos, headPos := Origin, Origin, Origin;
    }

    /** The editor hook: pulls the fire radius into its allowed ring, which makes the
        configuration valid. */
    method OnValidate()
      modifies this`fireAttackingRadius
      ensures fireAttackingRadius == ClampFireRadius(old(fireAttackingRadius), attackingRadius)
      ensures ValidConfig(Cfg())
    {
      fireAttackingRadius := ClampFireRadius(fireAttackingRadius, attackingRadius);
    }

    /** Start-up: the machine begins idle with an empty ground timer, and the wing and head
        positions are taken from the body parts in order, the last part of a slot winning. */
    method Start(parts: seq<BodyPart>)
      modifies this
      ensures currentState == Idle && timeOnPlan == 0.0
      ensures wingLeftPos == LastPosition(parts, LeftWingSlot, old(wingLeftPos))
      ensures wingRightPos == LastPosition(parts, RightWingSlot, old(wingRightPos))
      ensures headPos == LastPosition(parts, HeadSlot, old(headPos))
      ensures Cfg() == old(Cfg()) && flyingSpeed == old(flyingSpeed) && destroyed == old(destroyed)
    {
      timeOnPlan := 0.0;
      currentState := Idle;
      var i := 0;
      while i < |parts|
        invariant 0 <= i <= |parts|
        invariant wingLeftPos == LastPosition(parts[..i], LeftWingSlot, old(wingLeftPos))
        invariant wingRightPos == LastPosition(parts[..i], RightWingSlot, old(wingRightPos))
        invariant headPos == LastPosition(parts[..i], HeadSlot, old(headPos))
        invariant currentState == Idle && timeOnPlan == 0.0
        invariant Cfg() == old(Cfg()) && flyingSpeed == old(flyingSpeed) && destroyed == old(destroyed)
      {
        var part := parts[i];
        if part.tag == WingTag {
          if part.localZ > 0.0 {
            wingLeftPos := part.position;
          } else {
            wingRightPos := part.position;
          }
        } else if part.tag == HeadTag {
          headPos := part.position;
        }
        assert parts[..i + 1] == parts[..i] + [part];
        LastPositionSnoc(parts[..i], part, LeftWingSlot, old(wingLeftPos));
        LastPositionSnoc(parts[..i], part, RightWingSlot, old(wingRightPos));
        LastPositionSnoc(parts[..i], part, HeadSlot, old(headPos));
        i := i + 1;
      }
      assert parts[..i] == parts;
    }

    /** The alive test; a dead wyvern also destroys its own component. */
    method PlayerOrEnemyAliveToContinue(wyvernHealth: real, playerHealth: real) returns (ok: bool)
      modifies this`destroyed
      ensures ok == AliveToContinue(wyvernHealth, playerHealth)
      ensures destroyed == (old(destroyed) || wyvernHealth <= 0.0)
    {
      if wyvernHealth <= 0.0 {
        destroyed := true;
        return false;
      } else if playerHealth <= 0.0 {
        return false;
      }
      return true;
    }

    /** One frame. A destroyed component receives no more frames; otherwise the new state
        and the action are those of Step. */
    method Update(f: Frame) returns (action: Action)
      modifies this
      ensures Cfg() == old(Cfg())
      ensures wingLeftPos == old(wingLeftPos) && wingRightPos == old(wingRightPos) && headPos == old(headPos)
      ensures old(destroyed) ==> destroyed && Mind() == old(Mind()) && action == NoAction
      ensures !old(destroyed) ==> StepResult(Mind(), action) == Step(old(Cfg()), old(Mind()), f)
      ensures !old(destroyed) ==> destroyed == (f.wyvernHealth <= 0.0)
    {
      action := NoAction;
      if destroyed {
        return;
      }
      var alive := PlayerOrEnemyAliveToContinue(f.wyvernHealth, f.playerHealth);
      if !alive {
        return;
      }
      var distanceToPlayer := f.distanceToPlayer;
      match currentState {
        case Attacking =>
          if timeOnPlan >= timeOnPlanLimited {
            currentState := Flying;
            timeOnPlan := 0.0;
            flyingSpeed := 0.0;
            action := StartFlying;
          } else if distanceToPlayer >= fireAttackingRadius {
            currentState := Idle;
          } else if distanceToPlayer >= attackingRadius {
            action := FireAttack;
          } else {
            action := Melee(ChooseMeleeAttack(f.melee));
          }
          timeOnPlan := timeOnPlan + f.deltaTime;
        case Flying =>
          if f.skeletonGroupDead {
            currentState := Falling;
            flyingSpeed := 0.0;
            action := StartFalling;
          }
          flyingSpeed := flyingSpeed + f.deltaTime / 2.0;
        case Falling =>
          flyingSpeed := flyingSpeed + f.deltaTime * 0.75;
          if f.bodyToRoot <= 1.0 {
            currentState := Idle;
            action := Land;
          }
        case Idle =>
          if distanceToPlayer <= fireAttackingRadius || distanceToPlayer <= attackingRadius {
            currentState := Attacking;
          }
      }
    }
  }
}
