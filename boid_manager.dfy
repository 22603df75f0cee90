/** The flock container (Assets/Sheep/Scripts/BoidManager.cs): it spawns
    `boidCount` boids around its own position, points each at the shared
    target, appends them to its list, and switches on the debug drawing of
    the first five list entries. `Random.insideUnitSphere` is an oracle: the
    caller supplies one offset per boid, each inside the unit ball. */
module Spawning {
  import opened Scene
  import opened Flocking

  const DebugBoids := 5

  /** The number of loop iterations of `for (i = 0; i < count; i++)`. */
  function SpawnCount(count: int): nat {
    if count < 0 then 0 else count
  }

  /** The entries whose debug flag is switched on: `Mathf.Min(5, boids.Count)`. */
  function DebugPrefix(n: nat): (k: nat)
    ensures k <= n && k <= DebugBoids
    ensures k == n || k == DebugBoids
  {
    if n < DebugBoids then n else DebugBoids
  }

  predicate InUnitSphere(v: Vec3) {
    v.x * v.x + v.y * v.y + v.z * v.z <= 1.0
  }

  /** `transform.position + offset * spawnRadius`, then lifted to y = 1. */
  function SpawnPoint(center: Vec3, offset: Vec3, radius: real): Vec3 {
    var p := Add(center, Scale(offset, radius));
    Vec3(p.x, 1.0, p.z)
  }

  /** Every spawn point stands at height 1, horizontally within the spawn
      radius of the manager. */
  lemma SpawnPointInDisc(center: Vec3, offset: Vec3, radius: real)
    requires InUnitSphere(offset)
    ensures SpawnPoint(center, offset, radius).y == 1.0
    ensures HorizontalDistSq(SpawnPoint(center, offset, radius), center) <= radius * radius
  {
    var p := SpawnPoint(center, offset, radius);
    var h := offset.x * offset.x + offset.z * offset.z;
    assert offset.y * offset.y >= 0.0;
    assert h <= 1.0;
    calc {
      HorizontalDistSq(p, center);
      (offset.x * radius) * (offset.x * radius) + (offset.z * radius) * (offset.z * radius);
      h * (radius * radius);
    }
    assert radius * radius >= 0.0;
    assert h * (radius * radius) <= 1.0 * (radius * radius);
  }

  class BoidManager {
    var position: Vec3           // transform.position
    var boidPrefab: Boid
    var boidCount: int
    var spawnRadius: real
    var target: Transform?
    var boids: seq<Boid>

    constructor (prefab: Boid, p: Vec3, target: Transform?)
      ensures position == p && boidPrefab == prefab && this.target == target
      ensures boidCount == 20 && spawnRadius == 5.0 && boids == []
    {
      position, boidPrefab, this.target := p, prefab, target;
      boidCount, spawnRadius, boids := 20, 5.0, [];
    }

    /** SpawnBoids: appends the new boids after the existing ones (the list is
        never cleared) and then flags the first five list entries. */
    method SpawnBoids(offsets: seq<Vec3>)
      requires |offsets| == SpawnCount(boidCount)
      requires forall i :: 0 <= i < |offsets| ==> InUnitSphere(offsets[i])
      modifies this`boids, set k | 0 <= k < |boids| && k < DebugBoids :: boids[k]`debugAvoidance
      ensures |boids| == |old(boids)| + SpawnCount(boidCount)
      ensures boids[..|old(boids)|] == old(boids)
      ensures forall k :: |old(boids)| <= k < |boids| ==>
                var b := boids[k];
                fresh(b) && b.target == target &&
                b.position == SpawnPoint(position, offsets[k - |old(boids)|], spawnRadius) &&
                b.forward == Vec3(0.0, 0.0, 1.0) && b.bodyVelocity == Zero &&
                b.speed == boidPrefab.speed && b.rotationSpeed == boidPrefab.rotationSpeed && b.weights == boidPrefab.weights &&
                b.neighborRadius == boidPrefab.neighborRadius && b.avoidanceRadius == boidPrefab.avoidanceRadius &&
                b.avoidanceTags == boidPrefab.avoidanceTags &&
                b.obstacleCheckDistance == boidPrefab.obstacleCheckDistance
      ensures forall k, l :: |old(boids)| <= k < l < |boids| ==> boids[k] != boids[l]
      ensures forall k :: 0 <= k < DebugPrefix(|boids|) ==> boids[k].debugAvoidance
      ensures forall k :: DebugPrefix(|boids|) <= k < |boids| && boids[k] !in boids[..DebugPrefix(|boids|)] ==>
                boids[k].debugAvoidance == if k < |old(boids)| then old(boids[k].debugAvoidance)
                                           else old(boidPrefab.debugAvoidance)
    {
      SpawnNew(offsets);
      FlagFirst();
    }

    /** The spawn loop of SpawnBoids: one fresh boid per offset, appended. */
    method SpawnNew(offsets: seq<Vec3>)
      requires |offsets| == SpawnCount(boidCount)
      modifies this`boids
      ensures |boids| == |old(boids)| + SpawnCount(boidCount)
      ensures boids[..|old(boids)|] == old(boids)
      ensures forall k :: |old(boids)| <= k < |boids| ==>
                var b := boids[k];
                fresh(b) && b.target == target &&
                b.position == SpawnPoint(position, offsets[k - |old(boids)|], spawnRadius) &&
                b.forward == Vec3(0.0, 0.0, 1.0) && b.bodyVelocity == Zero &&
                b.speed == boidPrefab.speed && b.rotationSpeed == boidPrefab.rotationSpeed && b.weights == boidPrefab.weights &&
                b.neighborRadius == boidPrefab.neighborRadius && b.avoidanceRadius == boidPrefab.avoidanceRadius &&
                b.avoidanceTags == boidPrefab.avoidanceTags &&
                b.obstacleCheckDistance == boidPrefab.obstacleCheckDistance &&
                b.debugAvoidance == boidPrefab.debugAvoidance
      ensures forall k, l :: |old(boids)| <= k < l < |boids| ==> boids[k] != boids[l]
    {
      var n := SpawnCount(boidCount);
      var i := 0;
      while i < n
        invariant 0 <= i <= n
        invariant |boids| == |old(boids)| + i
        invariant boids[..|old(boids)|] == old(boids)
        invariant forall k :: |old(boids)| <= k < |boids| ==>
                    var b := boids[k];
                    fresh(b) && b.target == target &&
                    b.position == SpawnPoint(position, offsets[k - |old(boids)|], spawnRadius) &&
                    b.forward == Vec3(0.0, 0.0, 1.0) && b.bodyVelocity == Zero &&
                    b.speed == boidPrefab.speed && b.rotationSpeed == boidPrefab.rotationSpeed && b.weights == boidPrefab.weights &&
                    b.neighborRadius == boidPrefab.neighborRadius && b.avoidanceRadius == boidPrefab.avoidanceRadius &&
                    b.avoidanceTags == boidPrefab.avoidanceTags &&
                    b.obstacleCheckDistance == boidPrefab.obstacleCheckDistance &&
                    b.debugAvoidance == boidPrefab.debugAvoidance
        invariant forall k, l :: |old(boids)| <= k < l < |boids| ==> boids[k] != boids[l]
      {
        var spawnPos := SpawnPoint(position, offsets[i], spawnRadius);
        var newBoid := new Boid.Instantiate(boidPrefab, spawnPos);
        newBoid.target := target;
        boids := boids + [newBoid];
        i := i + 1;
      }
    }

    /** The debug loop of SpawnBoids: the first `min(5, count)` entries are
        flagged; no other boid changes. */
    method FlagFirst()
      modifies set k | 0 <= k < DebugPrefix(|boids|) :: boids[k]`debugAvoidance
      ensures forall k :: 0 <= k < DebugPrefix(|boids|) ==> boids[k].debugAvoidance
      ensures forall b :: b in boids && b !in boids[..DebugPrefix(|boids|)] ==> b.debugAvoidance == old(b.debugAvoidance)
    {
      var m := DebugPrefix(|boids|);
      var j := 0;
      while j < m
        invariant 0 <= j <= m
        invariant forall k :: 0 <= k < j ==> boids[k].debugAvoidance
        invariant forall b :: b in boids && b !in boids[..j] ==> b.debugAvoidance == old(b.debugAvoidance)
      {
        boids[j].debugAvoidance := true;
        j := j + 1;
      }
    }
  }
}
