# Wyvern boss, weapon gate and skeleton spawner — a Dafny model

This project models the decision logic of three gameplay scripts of a fantasy action RPG
built on a 3D game engine:

- **WyvernBehavior** (module `Wyvern`, `wyvern.dfy`): the boss's four-state machine
  (Idle, Attacking, Flying, Falling) stepped once per frame. It also covers the editor
  hook that keeps the fire-breath radius outside the melee radius, the choice among four
  melee attacks, and the start-up classification of the body parts into left wing, right
  wing and head. `Step` is the per-frame rule as a function. `WyvernBehavior.Update` is the
  imperative frame, proved equal to `Step`. The lemmas state what one frame and a run of
  frames do.
- **WeaponSystem** (module `Weapons`, `weapon_system.dfy`): equipping a weapon in the hand
  it is made for, the cooldown gate in `AttackTarget`, and the critical-hit damage rule.
  The class keeps a history of started attacks as an invariant: every attack came at
  least its cooldown after the previous one.
- **SkeletonArea** (module `Skeletons`, `skeleton_area.dfy`): the one-shot spawn counter
  with its spawn loop, and the cleanup rule over the area's children.

`scene.dfy` (module `Scene`) holds the engine values the three share: positions, object
identities and an option type.

Every value the engine provides is a parameter. This covers health percentages, distances,
frame time, the clock, random rolls, "the current skeleton group is dead" and the distance
from the animated body to the root. Distances and times are `real`. The model compares them
and performs the source's few sums exactly: the ground timer, the cooldown wait and elapsed
time, the flying-speed increments and the clamp bounds. A frame's distance to the player and
its root-to-player melee distance are one measurement in the engine but two independent
inputs here; every property is proved for all inputs, so this only widens what is covered.
Engine side effects become data: action tags returned from a frame, the set of live weapon
objects, the list of spawned skeletons, and the indices of children to destroy.

Some engine behaviour the model relies on:

- Starting a coroutine runs its body at once, up to its first suspension. So the flying and
  falling coroutines zero `flyingSpeed` in the same frame that starts them
  (`WyvernBehavior.cs` lines 179 and 194). On Flying→Falling the frame then adds `deltaTime/2`.
- Destruction is deferred to the end of the frame. The cleanup loop therefore visits every
  child. A destroyed weapon object waits in `pending` until `EndOfFrame` runs.
- The engine's null test is also true of an object whose destruction has taken effect, but
  not of one destroyed earlier in the same frame. `AttackTarget` therefore re-equips when
  the weapon object was destroyed in an earlier frame or never created (`WeaponGone`). It
  does not re-equip in the frame of the destruction.
- A component that has destroyed itself receives no further frames (the `destroyed` flag).

## Model

| member | source | states |
|---|---|---|
| Wyvern.ClampFireRadius | Assets/_Character/Enemies/Boss/WyvernBehavior.cs:46-49 | the stored fire radius lies in [attackingRadius+5, attackingRadius+40]; it is the point of that interval nearest the typed value; so it is strictly greater than attackingRadius |
| Wyvern.ClampFireRadiusIdempotent | Assets/_Character/Enemies/Boss/WyvernBehavior.cs:46-49 | validating a second time changes nothing |
| Wyvern.WyvernBehavior.OnValidate | Assets/_Character/Enemies/Boss/WyvernBehavior.cs:45-49 | only the fire radius changes; it becomes the clamped value; afterwards the configuration is valid (fire radius > melee radius) |
| Wyvern.AliveToContinue | Assets/_Character/Enemies/Boss/WyvernBehavior.cs:93-107 | the frame may continue exactly when both the wyvern's and the player's health percentages are positive |
| Wyvern.WyvernBehavior.PlayerOrEnemyAliveToContinue | Assets/_Character/Enemies/Boss/WyvernBehavior.cs:93-107 | returns the alive test; the component is marked destroyed exactly when the wyvern's health is not positive |
| Wyvern.ChooseMeleeAttack | Assets/_Character/Enemies/Boss/WyvernBehavior.cs:240-267 | selector as written: exactly one attack; Bite iff the head is strictly nearer than the other three; otherwise RightWing iff right < left and head < root; otherwise LeftWing iff left < root; otherwise SwoopClaw |
| Wyvern.ChooseMeleeAttackMissesNearestRightWing | Assets/_Character/Enemies/Boss/WyvernBehavior.cs:253 | the as-written selector picks the left wing for head 10, left 2, right 1, root 5, although the right wing is strictly nearer |
| Wyvern.NearestPartAttack | Assets/_Character/Enemies/Boss/WyvernBehavior.cs:248-266 | corrected selector: the chosen part is a nearest one (its distance is at most each of the four); Bite iff the head is strictly nearest |
| Wyvern.SelectorsDisagreeExactly | Assets/_Character/Enemies/Boss/WyvernBehavior.cs:248-266 | the corrected and as-written selectors differ exactly when head ≥ root while the right wing is nearer than both the left wing and the root |
| Wyvern.Step | Assets/_Character/Enemies/Boss/WyvernBehavior.cs:110-175 | one frame: the state stays or follows one edge (Idle↔Attacking, Attacking→Flying→Falling→Idle); take-off, falling and landing are started exactly on their own edges; fire and melee attacks happen only while Attacking and staying so |
| Wyvern.StepWhenDead | Assets/_Character/Enemies/Boss/WyvernBehavior.cs:93-112 | with the wyvern or the player at health ≤ 0, a frame changes no state and starts no action |
| Wyvern.StepFromIdle | Assets/_Character/Enemies/Boss/WyvernBehavior.cs:164-172 | under a valid configuration, Idle becomes Attacking exactly when distance ≤ fire radius, else it stays Idle; the ground timer is unchanged |
| Wyvern.StepGroundTimeLimit | Assets/_Character/Enemies/Boss/WyvernBehavior.cs:117-140 | in Attacking with timeOnPlan ≥ limit, whatever the distance: the state becomes Flying, the take-off starts, and the timer ends the frame equal to deltaTime |
| Wyvern.StepAttackingBelowLimit | Assets/_Character/Enemies/Boss/WyvernBehavior.cs:126-139 | below the limit: distance ≥ fire radius gives Idle; attack radius ≤ distance < fire radius gives a fire attack and stays Attacking; a smaller distance gives the as-written selector's melee attack and stays Attacking; the timer grows by exactly deltaTime |
| Wyvern.StepTimerOnlyOnGround | Assets/_Character/Enemies/Boss/WyvernBehavior.cs:139-172 | outside Attacking a frame leaves the ground timer untouched |
| Wyvern.StepAirborne | Assets/_Character/Enemies/Boss/WyvernBehavior.cs:141-163 | Flying becomes Falling exactly when the skeleton group is dead, else stays Flying; Falling becomes Idle exactly when the body is within 1 unit of the root, else stays Falling |
| Wyvern.RunWhileDead | Assets/_Character/Enemies/Boss/WyvernBehavior.cs:110-112 | over any number of frames in which either side is dead, the boss's state does not change |
| Wyvern.GroundTimeBounded | Assets/_Character/Enemies/Boss/WyvernBehavior.cs:117-140 | over any run of frames with deltaTime in [0, maxDelta], the ground timer stays within [0, limit + maxDelta] |
| Wyvern.LastIndex | Assets/_Character/Enemies/Boss/WyvernBehavior.cs:70-90 | the index found feeds the slot, and no later part feeds it; -1 means no part feeds it |
| Wyvern.LastPositionIsLastFeeder | Assets/_Character/Enemies/Boss/WyvernBehavior.cs:66-90 | a slot keeps its previous position when no part feeds it; otherwise it takes the position of the last part that feeds it |
| Wyvern.WyvernBehavior.Start | Assets/_Character/Enemies/Boss/WyvernBehavior.cs:51-91 | the state is Idle and the timer 0; wing and head positions come from the parts loop: a wing with local z > 0 is the left wing, any other wing the right; the last part of each slot wins |
| Wyvern.WyvernBehavior.constructor | Assets/_Character/Enemies/Boss/WyvernBehavior.cs:16-43 | designer defaults (radii 10 and 20, limit 10, flying speed 10, Idle), which form a valid configuration |
| Wyvern.WyvernBehavior.Update | Assets/_Character/Enemies/Boss/WyvernBehavior.cs:110-175 | a live component's new state and emitted action are those of Step; a destroyed component is left unchanged; configuration and body positions never change |
| Weapons.HandFor | Assets/_Character/Scripts/WeaponSystem.cs:66-73 | the right hand exactly for right-handed weapons, the left hand otherwise |
| Weapons.WeaponSystem.PutWeaponInHand | Assets/_Character/Scripts/WeaponSystem.cs:61-78 | the current weapon becomes the argument; the previous weapon object, if live, joins the objects pending destruction at the frame's end; a fresh one is created in the hand HandFor chooses, so exactly one weapon object is live and not pending; nothing else changes |
| Weapons.WeaponSystem.Start | Assets/_Character/Scripts/WeaponSystem.cs:33-41 | equips the configured weapon and installs its attack clip length |
| Weapons.WeaponSystem.DestroyWeaponObject | Assets/_Character/Scripts/WeaponSystem.cs:242-245 | no weapon object is live afterwards; the one that was live becomes pending destruction; the engine's null test answers as it did before the call, because the destruction waits for the frame's end |
| Weapons.WeaponSystem.EndOfFrame | Assets/_Character/Scripts/WeaponSystem.cs:244 | the deferred destructions take effect: nothing is pending afterwards, and the null test holds exactly when the weapon object is missing or no longer live |
| Weapons.WeaponSystem.AttackTarget | Assets/_Character/Scripts/WeaponSystem.cs:163-188 | re-equips if the weapon object is gone by the null test, so not in the frame it was destroyed (a fresh object holding the current weapon, in its hand); the target is always set; an attack fires iff both health percentages are > 0 and now − lastHitTime ≥ clip length + min time between hits; lastHitTime becomes now exactly when it fires and is otherwise unchanged; a player character becomes attacking regardless; the pending destructions are unchanged; the cooldown history invariant is kept |
| Weapons.SpacedPairs | Assets/_Character/Scripts/WeaponSystem.cs:175-182 | in an attack history kept by the gate where every wait is at least w ≥ 0, any two attacks are at least w apart |
| Weapons.NormalAttackDamage | Assets/_Character/Scripts/WeaponSystem.cs:202-215 | critical exactly when roll ≤ critical chance; a normal hit deals base + weapon damage; a critical hit deals that sum times the multiplier |
| Weapons.LowerRollNeverWeaker | Assets/_Character/Scripts/WeaponSystem.cs:204-214 | with multiplier ≥ 1 and a non-negative sum, a lower roll never deals less damage |
| Weapons.WeaponSystem.constructor | Assets/_Character/Scripts/WeaponSystem.cs:8-26 | no weapon object and no attack yet; lastHitTime starts at 0 |
| Skeletons.SpawnWave | Assets/_Character/Enemies/Skeleton/SkeletonArea.cs:67-71 | one skeleton per spawn point, the i-th placed at and parented to spawn point i |
| Skeletons.SkeletonArea.OnTriggerEnter | Assets/_Character/Enemies/Skeleton/SkeletonArea.cs:60-76 | nothing changes unless numberSpawn > 0 and the collider is the player's; then numberSpawn drops by exactly one, exactly one wave is appended, and the trigger collider is gone if the wave is non-empty; the lifetime invariant is kept |
| Skeletons.LifetimeBound | Assets/_Character/Enemies/Skeleton/SkeletonArea.cs:62-74 | from a non-negative initial count, numberSpawn stays within [0, initial] and at most initial × listOfSpawn.Length skeletons are ever created |
| Skeletons.SkeletonArea.constructor | Assets/_Character/Enemies/Skeleton/SkeletonArea.cs:9-11 | the area starts with its designer count, its collider and no skeletons |
| Skeletons.SkeletonArea.AutoFindDestroy | Assets/_Character/Enemies/Skeleton/SkeletonArea.cs:42-58 | with no children the area destroys itself; otherwise exactly the children with no children of their own are destroyed, in order, and the rest are kept |

## Findings

| source | as written | input that shows it | evidently intended | confidence | as-written member | corrected member |
|---|---|---|---|---|---|---|
| Assets/_Character/Enemies/Boss/WyvernBehavior.cs:253 | the right-wing guard compares the head with the root (`distanceHead < distanceSwoop`) | head 10, left wing 2, right wing 1, root 5: a left-wing attack, although the right wing is nearest | `distanceRightWing < distanceSwoop`, as each other branch compares its own part, so the attack uses the nearest part | medium, not executed | Wyvern.ChooseMeleeAttackMissesNearestRightWing | Wyvern.NearestPartAttack |

`Step` and `WyvernBehavior.Update` use the selector as written (`ChooseMeleeAttack`), as the
program does. `NearestPartAttack` is the corrected selector, and `SelectorsDisagreeExactly`
gives the exact inputs on which the two differ.

## Left out

- Coroutines `FlyingBehaviour`, `FallingBehaviour`, `FireSpawnLoop`, `MoveProjectile` and `DestroyParticleAfterFinishedSec` are not modelled. They are frame-scheduled motion and timing. Only their first synchronous statement, zeroing `flyingSpeed`, is kept. Take-off, falling and fire breathing appear only as action tags.
- Vector maths and `Vector3.Distance`: distances arrive as inputs. The landing test compares the body-to-root distance with 1 inside the model.
- `transform.LookAt`, animator parameters and override controllers, particle playback and gizmos (`OnDrawGizmos`) are engine side effects. They appear as action tags or not at all.
- `Instantiate` and `Destroy` are modelled as data: the live and pending weapon-object sets, the list of created skeletons, the destroy requests of the cleanup rule, and the collider flag. The grip transform placement of a weapon is not modelled.
- `Random.Range` and `GetWeaponDamage`: the roll and the weapon damage are parameters, because the engine's range semantics are not visible here.
- Hand lookup (`RequestRighHand`, `RequestLeftHand`) and its assertions: only the choice of hand is modelled.
- Projectile handling (`SpawnProjectile`, `SetProjectileDirection`, `ShootArrow`), `CancleAction`, `Hit` (damage delivery to another component's health), the empty `StopAttacking` and the getter `GetCurrentWeapon` are scene plumbing and are not modelled.
- `SetAttackAnimation` is modelled only through its effect on the cooldown: installing the current weapon's clip length. The branch that halts the editor when no override controller exists is not modelled.
- Trigger delivery by the physics engine: `OnTriggerEnter` is a call with an `isPlayer` flag. The model does not stop such calls once the trigger collider is destroyed. `hasCollider` only records that destruction.
- The older weapon component `Assets/_Character/WeaponSystem.cs` is not part of this model. It holds engine wiring only.
- Floating point: all arithmetic is exact `real` arithmetic, with no rounding.
