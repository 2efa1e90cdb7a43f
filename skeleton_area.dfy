/** A skeleton spawn area: a trigger volume that, when the player walks in, spawns one
    skeleton at each of its spawn points, a limited number of times, and a cleanup rule
    over its children. Trigger delivery is the engine's; here a trigger is a call
    that says whether the entering collider belongs to the player. */
module Skeletons {
  import opened Scene

  /** A spawn point object: its identity and world position. */
  datatype SpawnPoint = SpawnPoint(id: ObjectId, position: Vec3)

  /** A spawned skeleton: where it was placed and the object it is parented to. */
  datatype Skeleton = Skeleton(position: Vec3, parent: SpawnPoint)

  /** The wave one successful trigger creates: the i-th skeleton placed at and parented to
      the i-th spawn point. */
  function SpawnWave(points: seq<SpawnPoint>): (wave: seq<Skeleton>)
    ensures |wave| == |points|
    ensures forall i :: 0 <= i < |points| ==> wave[i].position == points[i].position && wave[i].parent == points[i]
  {
    seq(|points|, i requires 0 <= i < |points| => Skeleton(points[i].position, points[i]))
  }

  /** Whether a trigger spawns: spawns are left and the entering collider is the player's. */
  predicate Triggered(numberSpawn: int, isPlayer: bool) {
    numberSpawn > 0 && isPlayer
  }

  class SkeletonArea {
    const listOfSpawn: seq<SpawnPoint>
    ghost const initialSpawn: int     // numberSpawn as the designer set it
    var numberSpawn: int
    var hasCollider: bool             // the area's sphere trigger collider still exists
    var created: seq<Skeleton>        // every skeleton this area has spawned, in order

    /** Spawns used so far times the wave size is what has been created, and numberSpawn
        only ever moves down from its initial value while staying non-negative. */
    ghost predicate Valid()
      reads this
    {
      numberSpawn <= initialSpawn &&
      (numberSpawn < initialSpawn ==> numberSpawn >= 0) &&
      |created| == (initialSpawn - numberSpawn) * |listOfSpawn|
    }

    constructor (listOfSpawn: seq<SpawnPoint>, numberSpawn: int)
      ensures Valid()
      ensures this.listOfSpawn == listOfSpawn && this.numberSpawn == numberSpawn && initialSpawn == numberSpawn
      ensures hasCollider && created == []
    {
      this.listOfSpawn := listOfSpawn;
      this.numberSpawn := numberSpawn;
      initialSpawn := numberSpawn;
      hasCollider := true;
      created := [];
    }

    /** A collider enters the area. Unless spawns are left and it is the player's, nothing
        happens. Otherwise one spawn is used up and one skeleton is created per spawn point,
        the area's trigger collider being destroyed along the way. */
    method OnTriggerEnter(isPlayer: bool)
      requires Valid()
      modifies this
      ensures Valid()
      ensures numberSpawn == (if Triggered(old(numberSpawn), isPlayer) then old(numberSpawn) - 1 else old(numberSpawn))
      ensures created == old(created) + (if Triggered(old(numberSpawn), isPlayer) then SpawnWave(listOfSpawn) else [])
      ensures hasCollider == (old(hasCollider) && !(Triggered(old(numberSpawn), isPlayer) && |listOfSpawn| > 0))
    {
      if numberSpawn > 0 {
        if isPlayer {
          numberSpawn := numberSpawn - 1;
          var i := 0;
          while i < |listOfSpawn|
            invariant 0 <= i <= |listOfSpawn|
            invariant numberSpawn == old(numberSpawn) - 1
            invariant created == old(created) + SpawnWave(listOfSpawn)[..i]
            invariant hasCollider == (old(hasCollider) && i == 0)
          {
            var skeletonClone := Skeleton(listOfSpawn[i].position, listOfSpawn[i]);
            created := created + [skeletonClone];
            hasCollider := false;
            i := i + 1;
          }
          assert SpawnWave(listOfSpawn)[..i] == SpawnWave(listOfSpawn);
        }
      }
    }

    /** The cleanup rule over the children's own child counts. Destruction is deferred to
        the end of the frame, so the loop sees every child. With no children the area itself
        is destroyed; otherwise exactly the childless children are, listed in order. */
    method AutoFindDestroy(childCounts: seq<nat>) returns (destroySelf: bool, doomed: seq<nat>)
      ensures destroySelf <==> |childCounts| == 0
      ensures forall k :: k in doomed <==> 0 <= k < |childCounts| && childCounts[k] == 0
      ensures forall a, b :: 0 <= a < b < |doomed| ==> doomed[a] < doomed[b]
    {
      doomed := [];
      if |childCounts| == 0 {
        destroySelf := true;
      } else {
        destroySelf := false;
        var i := 0;
        while i < |childCounts|
          invariant 0 <= i <= |childCounts|
          invariant forall k :: k in doomed <==> 0 <= k < i && childCounts[k] == 0
          invariant forall a, b :: 0 <= a < b < |doomed| ==> doomed[a] < doomed[b]
          invariant forall a :: 0 <= a < |doomed| ==> doomed[a] < i
        {
          if childCounts[i] == 0 {
            doomed := doomed + [i];
          }
          i := i + 1;
        }
      }
    }
  }

  /** Over the area's whole life, starting from a non-negative count, numberSpawn never goes
      negative and at most initialSpawn waves of listOfSpawn skeletons are created. */
  lemma LifetimeBound(area: SkeletonArea)
    requires area.Valid() && area.initialSpawn >= 0
    ensures 0 <= area.numberSpawn <= area.initialSpawn
    ensures |area.created| <= area.initialSpawn * |area.listOfSpawn|
  {
  }
}
