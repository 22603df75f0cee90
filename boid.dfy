/** One flock member and its steering rules (Assets/Sheep/Scripts/Boid.cs).

    Each physics step a boid sums four weighted steering forces (alignment,
    cohesion, separation and target seeking), casts a fan of twenty rays to
    find obstacles, throttles its speed near them, and blends the avoidance
    force into the sum with an 80% bias. The engine's numerics that involve
    square roots or trigonometry are parameters:
      - `dist`   is `Vector3.Distance`,
      - `norm`   is `Vector3.normalized`,
      - `rotate` is `Quaternion.Euler(0, angle, 0) * v`,
    and the raycasts of one step are given as a sequence of ray results. */
module Flocking {
  import opened Scene

  /** The five steering weights of the inspector's "Weights" header. */
  datatype Weights = Weights(
    alignment: real,
    cohesion: real,
    separation: real,
    targetFollow: real,
    obstacleAvoidance: real)

  /** What one forward ray of the obstacle fan reports: nothing within the
      check distance, or the first collider hit, with its tag and distance. */
  datatype RayResult = Miss | Hit(tag: string, distance: real)

  const DefaultTags: seq<string> := ["Obstacle", "Wall", "Tree"]

  class Boid {
    var position: Vec3        // transform.position
    var forward: Vec3         // transform.forward
    var bodyVelocity: Vec3    // rb.velocity, what neighbours align with
    var speed: real
    var rotationSpeed: real
    var neighborRadius: real
    var avoidanceRadius: real
    var avoidanceTags: seq<string>
    var weights: Weights
    var obstacleCheckDistance: real
    var debugAvoidance: bool
    var target: Transform?

    /** A boid with the inspector defaults of the source. */
    constructor ()
      ensures speed == 3.4 && rotationSpeed == 5.0
      ensures neighborRadius == 12.69 && avoidanceRadius == 1.56
      ensures avoidanceTags == DefaultTags
      ensures weights == Weights(0.9, 0.6, 3.2, 2.5, 5.5)
      ensures obstacleCheckDistance == 4.0
      ensures !debugAvoidance && target == null
    {
      position, forward, bodyVelocity := Zero, Vec3(0.0, 0.0, 1.0), Zero;
      speed, rotationSpeed := 3.4, 5.0;
      neighborRadius, avoidanceRadius := 12.69, 1.56;
      avoidanceTags := DefaultTags;
      weights := Weights(0.9, 0.6, 3.2, 2.5, 5.5);
      obstacleCheckDistance := 4.0;
      debugAvoidance, target := false, null;
    }

    /** `Instantiate(prefab, p, Quaternion.identity, ...)`: a copy of the
        prefab's settings, placed at `p` with the identity rotation, so facing +z. */
    constructor Instantiate(prefab: Boid, p: Vec3)
      ensures position == p && forward == Vec3(0.0, 0.0, 1.0) && bodyVelocity == Zero
      ensures speed == prefab.speed
      ensures rotationSpeed == prefab.rotationSpeed
      ensures neighborRadius == prefab.neighborRadius
      ensures avoidanceRadius == prefab.avoidanceRadius
      ensures avoidanceTags == prefab.avoidanceTags && weights == prefab.weights
      ensures obstacleCheckDistance == prefab.obstacleCheckDistance
      ensures debugAvoidance == prefab.debugAvoidance && target == prefab.target
    {
      position, forward, bodyVelocity := p, Vec3(0.0, 0.0, 1.0), Zero;
      speed, rotationSpeed := prefab.speed, prefab.rotationSpeed;
      neighborRadius, avoidanceRadius := prefab.neighborRadius, prefab.avoidanceRadius;
      avoidanceTags, weights := prefab.avoidanceTags, prefab.weights;
      obstacleCheckDistance := prefab.obstacleCheckDistance;
      debugAvoidance, target := prefab.debugAvoidance, prefab.target;
    }

    /** Align: the direction of the neighbours' mean velocity, or zero. */
    method Align(flock: seq<Boid>, dist: (Vec3, Vec3) -> real, norm: Vec3 -> Vec3) returns (r: Vec3)
      ensures r == AlignForce(this, flock, dist, norm)
    {
      var sum, count, i := Zero, 0, 0;
      while i < |flock|
        invariant 0 <= i <= |flock|
        invariant count == NeighbourCount(this, flock[..i], neighborRadius, dist)
        invariant sum == VelocitySum(this, flock[..i], neighborRadius, dist)
      {
        var b := flock[i];
        assert flock[..i + 1] == flock[..i] + [b];
        if b != this && dist(position, b.position) < neighborRadius {
          sum := Add(sum, b.bodyVelocity);
          count := count + 1;
        }
        i := i + 1;
      }
      assert flock[..i] == flock;
      r := if count > 0 then norm(Div(sum, count as real)) else Zero;
    }

    /** Cohere: the direction from this boid to the neighbours' centre, or zero. */
    method Cohere(flock: seq<Boid>, dist: (Vec3, Vec3) -> real, norm: Vec3 -> Vec3) returns (r: Vec3)
      ensures r == CohereForce(this, flock, dist, norm)
    {
      var center, count, i := Zero, 0, 0;
      while i < |flock|
        invariant 0 <= i <= |flock|
        invariant count == NeighbourCount(this, flock[..i], neighborRadius, dist)
        invariant center == PositionSum(this, flock[..i], neighborRadius, dist)
      {
        var b := flock[i];
        assert flock[..i + 1] == flock[..i] + [b];
        if b != this && dist(position, b.position) < neighborRadius {
          center := Add(center, b.position);
          count := count + 1;
        }
        i := i + 1;
      }
      assert flock[..i] == flock;
      r := if count > 0 then norm(Sub(Div(center, count as real), position)) else Zero;
    }

    /** Separate: the direction of the summed distance-weighted repulsion
        from boids closer than the avoidance radius, or zero. */
    method Separate(flock: seq<Boid>, dist: (Vec3, Vec3) -> real, norm: Vec3 -> Vec3) returns (r: Vec3)
      ensures r == SeparateForce(this, flock, dist, norm)
    {
      var avoidance, count, i := Zero, 0, 0;
      while i < |flock|
        invariant 0 <= i <= |flock|
        invariant count == NeighbourCount(this, flock[..i], avoidanceRadius, dist)
        invariant avoidance == RepulsionSum(this, flock[..i], dist, norm)
      {
        var b := flock[i];
        assert flock[..i + 1] == flock[..i] + [b];
        if b != this {
          var d := dist(position, b.position);
          if d < avoidanceRadius {
            avoidance := Add(avoidance, Repulsion(position, b.position, d, norm));
            count := count + 1;
          }
        }
        i := i + 1;
      }
      assert flock[..i] == flock;
      r := if count > 0 then norm(avoidance) else Zero;
    }

    /** SeekTarget, guarded as the caller guards it: zero without a target. */
    method SeekTarget(norm: Vec3 -> Vec3) returns (r: Vec3)
      ensures r == SeekForce(this, norm)
      ensures target == null ==> r == Zero
    {
      r := if target != null then norm(Sub(target.position, position)) else Zero;
    }

    /** AvoidObstacles: scans the twenty rays in order, then throttles or
        restores the speed and returns the avoidance steering force. */
    method AvoidObstacles(rays: seq<RayResult>, rotate: (real, Vec3) -> Vec3, norm: Vec3 -> Vec3)
      returns (r: Vec3)
      requires |rays| == RayCount
      requires obstacleCheckDistance > 0.0
      requires RaysWithin(rays, obstacleCheckDistance)
      modifies this`speed
      ensures r == AvoidanceForce(Decide(rays, avoidanceTags), forward, rotate, norm)
      ensures speed == NextSpeed(old(speed), rays, avoidanceTags, obstacleCheckDistance)
    {
      var obstacleDetected, minDistanceToObstacle, bestDirection, hasClearPath, clearPathDirection :=
        ScanRays(rays, avoidanceTags, forward, rotate);
      if obstacleDetected {
        var slowDownFactor := Clamp01(minDistanceToObstacle / obstacleCheckDistance);
        var newSpeed := Lerp(speed, speed * slowDownFactor, 0.5);
        speed := Max(newSpeed, 0.5);
        if hasClearPath {
          return Scale(norm(clearPathDirection), 2.0);
        }
        return Scale(norm(CrossUp(bestDirection)), 2.5);
      }
      speed := Lerp(speed, 2.0, 0.5);
      return Zero;
    }

    /** Lines 44-59 of FixedUpdate: the five forces and their blend. The
        speed changes only through AvoidObstacles. */
    method Steer(flock: seq<Boid>, rays: seq<RayResult>, dist: (Vec3, Vec3) -> real,
                 norm: Vec3 -> Vec3, rotate: (real, Vec3) -> Vec3) returns (acceleration: Vec3)
      requires |rays| == RayCount
      requires obstacleCheckDistance > 0.0
      requires RaysWithin(rays, obstacleCheckDistance)
      modifies this`speed
      ensures acceleration == Blend(old(AlignForce(this, flock, dist, norm)), old(CohereForce(this, flock, dist, norm)),
                                    old(SeparateForce(this, flock, dist, norm)), old(SeekForce(this, norm)),
                                    AvoidanceForce(Decide(rays, avoidanceTags), forward, rotate, norm), weights)
      ensures speed == NextSpeed(old(speed), rays, avoidanceTags, obstacleCheckDistance)
    {
      var align := Align(flock, dist, norm);
      var cohere := Cohere(flock, dist, norm);
      var separate := Separate(flock, dist, norm);
      var seek := SeekTarget(norm);
      var avoid := AvoidObstacles(rays, rotate, norm);
      acceleration := Blend(align, cohere, separate, seek, avoid, weights);
    }
  }

  /** The loop of AvoidObstacles over the twenty rays: whether a tagged
      obstacle was hit, the closest tagged hit, the direction of the farthest
      one and the last clear ray, each as its specification function says. */
  method ScanRays(rays: seq<RayResult>, tags: seq<string>, forward: Vec3, rotate: (real, Vec3) -> Vec3)
    returns (obstacleDetected: bool, minDistanceToObstacle: real, bestDirection: Vec3,
             hasClearPath: bool, clearPathDirection: Vec3)
    requires |rays| == RayCount
    ensures obstacleDetected == AnyTagged(rays, tags)
    ensures minDistanceToObstacle == MinTagged(rays, tags)
    ensures bestDirection == BestDirection(rays, tags, forward, rotate)
    ensures hasClearPath == LastClear(rays).Some?
    ensures hasClearPath ==> clearPathDirection == RayDirection(forward, LastClear(rays).value, rotate)
  {
    bestDirection := forward;
    obstacleDetected := false;
    var maxObstacleDistance := 0.0;
    clearPathDirection := Zero;
    hasClearPath := false;
    minDistanceToObstacle := FloatMax;
    var i := 0;
    while i < RayCount
      invariant 0 <= i <= RayCount
      invariant obstacleDetected == AnyTagged(rays[..i], tags)
      invariant maxObstacleDistance == MaxTagged(rays[..i], tags)
      invariant minDistanceToObstacle == MinTagged(rays[..i], tags)
      invariant bestDirection == BestDirection(rays[..i], tags, forward, rotate)
      invariant hasClearPath == LastClear(rays[..i]).Some?
      invariant hasClearPath ==> clearPathDirection == RayDirection(forward, LastClear(rays[..i]).value, rotate)
    {
      var rayDirection := RayDirection(forward, i, rotate);
      assert rays[..i + 1] == rays[..i] + [rays[i]];
      var ray := rays[i];
      if ray.Hit? {
        if ray.tag in tags {
          obstacleDetected := true;
          if ray.distance < minDistanceToObstacle {
            minDistanceToObstacle := ray.distance;
          }
          if ray.distance > maxObstacleDistance {
            maxObstacleDistance := ray.distance;
            bestDirection := rayDirection;
          }
        }
      } else {
        hasClearPath := true;
        clearPathDirection := rayDirection;
      }
      i := i + 1;
    }
    assert rays[..i] == rays;
  }

  // ---------------------------------------------------------------------
  // Neighbour filters

  /** The test every neighbour loop applies: another boid (by reference),
      strictly closer than the radius. */
  predicate IsNeighbour(me: Boid, other: Boid, radius: real, dist: (Vec3, Vec3) -> real)
    reads me, other
  {
    other != me && dist(me.position, other.position) < radius
  }

  function NeighbourCount(me: Boid, flock: seq<Boid>, radius: real, dist: (Vec3, Vec3) -> real): nat
    reads me, flock
  {
    if |flock| == 0 then 0
    else NeighbourCount(me, flock[..|flock| - 1], radius, dist)
         + (if IsNeighbour(me, flock[|flock| - 1], radius, dist) then 1 else 0)
  }

  function VelocitySum(me: Boid, flock: seq<Boid>, radius: real, dist: (Vec3, Vec3) -> real): Vec3
    reads me, flock
  {
    if |flock| == 0 then Zero
    else var b := flock[|flock| - 1];
      var s := VelocitySum(me, flock[..|flock| - 1], radius, dist);
      if IsNeighbour(me, b, radius, dist) then Add(s, b.bodyVelocity) else s
  }

  function PositionSum(me: Boid, flock: seq<Boid>, radius: real, dist: (Vec3, Vec3) -> real): Vec3
    reads me, flock
  {
    if |flock| == 0 then Zero
    else var b := flock[|flock| - 1];
      var s := PositionSum(me, flock[..|flock| - 1], radius, dist);
      if IsNeighbour(me, b, radius, dist) then Add(s, b.position) else s
  }

  /** One boid's push away from a neighbour at distance `d`. The source
      divides by `d`; coincident boids (d = 0) are given no push here. */
  function Repulsion(mine: Vec3, theirs: Vec3, d: real, norm: Vec3 -> Vec3): Vec3 {
    if d == 0.0 then Zero else Div(norm(Sub(mine, theirs)), d)
  }

  function RepulsionSum(me: Boid, flock: seq<Boid>, dist: (Vec3, Vec3) -> real, norm: Vec3 -> Vec3): Vec3
    reads me, flock
  {
    if |flock| == 0 then Zero
    else var b := flock[|flock| - 1];
      var s := RepulsionSum(me, flock[..|flock| - 1], dist, norm);
      if IsNeighbour(me, b, me.avoidanceRadius, dist)
      then Add(s, Repulsion(me.position, b.position, dist(me.position, b.position), norm))
      else s
  }

  function AlignForce(me: Boid, flock: seq<Boid>, dist: (Vec3, Vec3) -> real, norm: Vec3 -> Vec3): Vec3
    reads me, flock
  {
    var n := NeighbourCount(me, flock, me.neighborRadius, dist);
    if n > 0 then norm(Div(VelocitySum(me, flock, me.neighborRadius, dist), n as real)) else Zero
  }

  function CohereForce(me: Boid, flock: seq<Boid>, dist: (Vec3, Vec3) -> real, norm: Vec3 -> Vec3): Vec3
    reads me, flock
  {
    var n := NeighbourCount(me, flock, me.neighborRadius, dist);
    if n > 0 then norm(Sub(Div(PositionSum(me, flock, me.neighborRadius, dist), n as real), me.position))
    else Zero
  }

  function SeparateForce(me: Boid, flock: seq<Boid>, dist: (Vec3, Vec3) -> real, norm: Vec3 -> Vec3): Vec3
    reads me, flock
  {
    if NeighbourCount(me, flock, me.avoidanceRadius, dist) > 0 then norm(RepulsionSum(me, flock, dist, norm))
    else Zero
  }

  function SeekForce(me: Boid, norm: Vec3 -> Vec3): Vec3
    reads me, me.target
  {
    if me.target != null then norm(Sub(me.target.position, me.position)) else Zero
  }

  // ---------------------------------------------------------------------
  // Obstacle fan

  const RayCount := 20
  const MaxAngle: real := 120.0
  /** `float.MaxValue`, the starting value of the closest-obstacle distance. */
  const FloatMax: real := 340282346638528859811704183484516925440.0

  /** The yaw of ray `i`: `-maxAngle / 2 + i * maxAngle / (rayCount - 1)`. */
  function RayAngle(i: int): real {
    -MaxAngle / 2.0 + (MaxAngle / (RayCount - 1) as real) * i as real
  }

  function RayDirection(forward: Vec3, i: int, rotate: (real, Vec3) -> Vec3): Vec3 {
    rotate(RayAngle(i), forward)
  }

  /** What a raycast limited to `maxDistance` can report. */
  predicate RaysWithin(rays: seq<RayResult>, maxDistance: real) {
    forall i :: 0 <= i < |rays| && rays[i].Hit? ==> 0.0 <= rays[i].distance <= maxDistance
  }

  predicate Tagged(r: RayResult, tags: seq<string>) {
    r.Hit? && r.tag in tags
  }

  predicate AnyTagged(rays: seq<RayResult>, tags: seq<string>) {
    exists i :: 0 <= i < |rays| && Tagged(rays[i], tags)
  }

  function Max(a: real, b: real): real {
    if a >= b then a else b
  }

  /** The index of the last ray that hit nothing. */
  function LastClear(rays: seq<RayResult>): Option<nat> {
    if |rays| == 0 then None
    else if rays[|rays| - 1].Miss? then Some(|rays| - 1)
    else LastClear(rays[..|rays| - 1])
  }

  /** The running maximum of tagged hit distances, starting from 0. */
  function MaxTagged(rays: seq<RayResult>, tags: seq<string>): real {
    if |rays| == 0 then 0.0
    else var m := MaxTagged(rays[..|rays| - 1], tags);
      var r := rays[|rays| - 1];
      if Tagged(r, tags) && r.distance > m then r.distance else m
  }

  /** The running minimum of tagged hit distances, starting from `float.MaxValue`. */
  function MinTagged(rays: seq<RayResult>, tags: seq<string>): real {
    if |rays| == 0 then FloatMax
    else var m := MinTagged(rays[..|rays| - 1], tags);
      var r := rays[|rays| - 1];
      if Tagged(r, tags) && r.distance < m then r.distance else m
  }

  /** The ray that first raised the running maximum last, i.e. the first
      tagged hit at the maximal distance, provided that distance exceeds 0. */
  function Farthest(rays: seq<RayResult>, tags: seq<string>): Option<nat> {
    if |rays| == 0 then None
    else var r := rays[|rays| - 1];
      if Tagged(r, tags) && r.distance > MaxTagged(rays[..|rays| - 1], tags) then Some(|rays| - 1)
      else Farthest(rays[..|rays| - 1], tags)
  }

  function BestDirection(rays: seq<RayResult>, tags: seq<string>, forward: Vec3,
                         rotate: (real, Vec3) -> Vec3): Vec3 {
    match Farthest(rays, tags)
    case None => forward
    case Some(j) => RayDirection(forward, j, rotate)
  }

  /** What the scan decides: no obstacle, head for a clear ray, or steer
      sideways off a ray (`None`: off the forward direction). */
  datatype Avoidance = NoObstacle | TowardClear(ray: nat) | Lateral(off: Option<nat>)

  function Decide(rays: seq<RayResult>, tags: seq<string>): Avoidance {
    if !AnyTagged(rays, tags) then NoObstacle
    else match LastClear(rays)
      case Some(k) => TowardClear(k)
      case None => Lateral(Farthest(rays, tags))
  }

  function AvoidanceForce(d: Avoidance, forward: Vec3, rotate: (real, Vec3) -> Vec3,
                          norm: Vec3 -> Vec3): Vec3 {
    match d
    case NoObstacle => Zero
    case TowardClear(k) => Scale(norm(RayDirection(forward, k, rotate)), 2.0)
    case Lateral(off) =>
      var best := match off case None => forward case Some(j) => RayDirection(forward, j, rotate);
      Scale(norm(CrossUp(best)), 2.5)
  }

  /** The speed after one scan: throttled towards the closest obstacle but
      never below 0.5, or halfway back to 2 when nothing was detected. */
  function NextSpeed(speed: real, rays: seq<RayResult>, tags: seq<string>, checkDistance: real): real
    requires checkDistance > 0.0
  {
    if AnyTagged(rays, tags) then
      Max(Lerp(speed, speed * Clamp01(MinTagged(rays, tags) / checkDistance), 0.5), 0.5)
    else Lerp(speed, 2.0, 0.5)
  }

  // ---------------------------------------------------------------------
  // Force blend

  /** Lines 44-59: the weighted sum, pulled 80% of the way towards the
      weighted avoidance force whenever that force is not zero. */
  function Blend(align: Vec3, cohere: Vec3, separate: Vec3, seek: Vec3, avoid: Vec3, w: Weights): Vec3 {
    var sum := Add(Add(Add(Scale(align, w.alignment), Scale(cohere, w.cohesion)),
                       Scale(separate, w.separation)), Scale(seek, w.targetFollow));
    var avoidance := Scale(avoid, w.obstacleAvoidance);
    if avoidance != Zero then LerpVec(sum, avoidance, 0.8) else sum
  }

  // ---------------------------------------------------------------------
  // Properties of the neighbour filters

  /** No neighbour is counted exactly when no boid of the list passes the
      filter (another boid, strictly inside the radius). */
  lemma {:induction false} NoNeighboursIff(me: Boid, flock: seq<Boid>, radius: real, dist: (Vec3, Vec3) -> real)
    ensures NeighbourCount(me, flock, radius, dist) == 0
            <==> forall i :: 0 <= i < |flock| ==> !IsNeighbour(me, flock[i], radius, dist)
  {
    if |flock| > 0 {
      var init := flock[..|flock| - 1];
      NoNeighboursIff(me, init, radius, dist);
      assert forall i :: 0 <= i < |init| ==> init[i] == flock[i];
    }
  }

  /** The boid itself, wherever it stands in the list, changes none of the
      accumulated counts and sums. */
  lemma {:induction false} SelfIgnored(me: Boid, front: seq<Boid>, back: seq<Boid>, radius: real,
                                       dist: (Vec3, Vec3) -> real, norm: Vec3 -> Vec3)
    ensures NeighbourCount(me, front + [me] + back, radius, dist) == NeighbourCount(me, front + back, radius, dist)
    ensures VelocitySum(me, front + [me] + back, radius, dist) == VelocitySum(me, front + back, radius, dist)
    ensures PositionSum(me, front + [me] + back, radius, dist) == PositionSum(me, front + back, radius, dist)
    ensures RepulsionSum(me, front + [me] + back, dist, norm) == RepulsionSum(me, front + back, dist, norm)
    decreases |back|
  {
    if |back| == 0 {
      assert front + [me] + back == front + [me];
      assert (front + [me])[..|front|] == front;
      assert front + back == front;
    } else {
      var init := back[..|back| - 1];
      var last := back[|back| - 1];
      SelfIgnored(me, front, init, radius, dist, norm);
      assert front + [me] + back == (front + [me] + init) + [last];
      assert (front + [me] + back)[..|front + [me] + back| - 1] == front + [me] + init;
      assert front + back == (front + init) + [last];
      assert (front + back)[..|front + back| - 1] == front + init;
    }
  }

  /** Consequently the three neighbour forces never depend on the boid's own entry. */
  lemma SelfNeverSteers(me: Boid, front: seq<Boid>, back: seq<Boid>, dist: (Vec3, Vec3) -> real, norm: Vec3 -> Vec3)
    ensures AlignForce(me, front + [me] + back, dist, norm) == AlignForce(me, front + back, dist, norm)
    ensures CohereForce(me, front + [me] + back, dist, norm) == CohereForce(me, front + back, dist, norm)
    ensures SeparateForce(me, front + [me] + back, dist, norm) == SeparateForce(me, front + back, dist, norm)
  {
    SelfIgnored(me, front, back, me.neighborRadius, dist, norm);
    SelfIgnored(me, front, back, me.avoidanceRadius, dist, norm);
  }

  /** With no other boid strictly inside the neighbour radius, alignment and
      cohesion are the zero vector; likewise separation for the avoidance radius. */
  lemma LonelyBoidForcesAreZero(me: Boid, flock: seq<Boid>, dist: (Vec3, Vec3) -> real, norm: Vec3 -> Vec3)
    ensures (forall i :: 0 <= i < |flock| ==> flock[i] == me || dist(me.position, flock[i].position) >= me.neighborRadius)
            ==> AlignForce(me, flock, dist, norm) == Zero && CohereForce(me, flock, dist, norm) == Zero
    ensures (forall i :: 0 <= i < |flock| ==> flock[i] == me || dist(me.position, flock[i].position) >= me.avoidanceRadius)
            ==> SeparateForce(me, flock, dist, norm) == Zero
  {
    NoNeighboursIff(me, flock, me.neighborRadius, dist);
    NoNeighboursIff(me, flock, me.avoidanceRadius, dist);
  }

  /** The radius test is strict: a boid exactly at the radius is not a
      neighbour, so it changes none of the sums and none of the three forces. */
  lemma BoundaryExcluded(me: Boid, flock: seq<Boid>, other: Boid, radius: real,
                         dist: (Vec3, Vec3) -> real, norm: Vec3 -> Vec3)
    requires dist(me.position, other.position) == radius
    ensures NeighbourCount(me, flock + [other], radius, dist) == NeighbourCount(me, flock, radius, dist)
    ensures VelocitySum(me, flock + [other], radius, dist) == VelocitySum(me, flock, radius, dist)
    ensures PositionSum(me, flock + [other], radius, dist) == PositionSum(me, flock, radius, dist)
    ensures radius == me.neighborRadius ==>
              AlignForce(me, flock + [other], dist, norm) == AlignForce(me, flock, dist, norm) &&
              CohereForce(me, flock + [other], dist, norm) == CohereForce(me, flock, dist, norm)
    ensures radius == me.avoidanceRadius ==>
              RepulsionSum(me, flock + [other], dist, norm) == RepulsionSum(me, flock, dist, norm) &&
              SeparateForce(me, flock + [other], dist, norm) == SeparateForce(me, flock, dist, norm)
  {
    assert (flock + [other])[..|flock|] == flock;
  }

  /** Three neighbours moving along +x, +z and -x: alignment steers along the
      direction of their mean velocity (0, 0, 1/3). */
  lemma AlignThreeNeighbours(me: Boid, a: Boid, b: Boid, c: Boid, dist: (Vec3, Vec3) -> real, norm: Vec3 -> Vec3)
    requires a != me && b != me && c != me
    requires a.bodyVelocity == Vec3(1.0, 0.0, 0.0)
    requires b.bodyVelocity == Vec3(0.0, 0.0, 1.0)
    requires c.bodyVelocity == Vec3(-1.0, 0.0, 0.0)
    requires dist(me.position, a.position) < me.neighborRadius
    requires dist(me.position, b.position) < me.neighborRadius
    requires dist(me.position, c.position) < me.neighborRadius
    ensures AlignForce(me, [me, a, b, c], dist, norm) == norm(Vec3(0.0, 0.0, 1.0 / 3.0))
  {
    var r := me.neighborRadius;
    AppendOne(me, [], me, r, dist);
    assert [] + [me] == [me];
    AppendOne(me, [me], a, r, dist);
    assert [me] + [a] == [me, a];
    AppendOne(me, [me, a], b, r, dist);
    assert [me, a] + [b] == [me, a, b];
    AppendOne(me, [me, a, b], c, r, dist);
    assert [me, a, b] + [c] == [me, a, b, c];
  }

  /** One more boid at the end of the list adds to the count and the sum
      exactly when it passes the filter. */
  lemma AppendOne(me: Boid, flock: seq<Boid>, b: Boid, radius: real, dist: (Vec3, Vec3) -> real)
    ensures NeighbourCount(me, flock + [b], radius, dist)
            == NeighbourCount(me, flock, radius, dist) + if IsNeighbour(me, b, radius, dist) then 1 else 0
    ensures VelocitySum(me, flock + [b], radius, dist)
            == if IsNeighbour(me, b, radius, dist) then Add(VelocitySum(me, flock, radius, dist), b.bodyVelocity)
               else VelocitySum(me, flock, radius, dist)
  {
    assert (flock + [b])[..|flock|] == flock;
  }

  // ---------------------------------------------------------------------
  // Properties of the obstacle scan

  /** The fan has twenty rays, from -60 to +60 degrees, in increasing order. */
  lemma RayFanSpan()
    ensures RayAngle(0) == -60.0 && RayAngle(RayCount - 1) == 60.0
    ensures forall i, j :: 0 <= i < j < RayCount ==> RayAngle(i) < RayAngle(j)
  {
  }

  /** `LastClear` names the last ray that hit nothing, and is `None` exactly
      when every ray hit something. */
  lemma {:induction false} LastClearIsLast(rays: seq<RayResult>)
    ensures LastClear(rays).Some? ==>
              var k := LastClear(rays).value;
              k < |rays| && rays[k].Miss? && forall j :: k < j < |rays| ==> rays[j].Hit?
    ensures LastClear(rays).None? <==> forall j :: 0 <= j < |rays| ==> rays[j].Hit?
  {
    if |rays| > 0 {
      var init := rays[..|rays| - 1];
      LastClearIsLast(init);
      assert forall j :: 0 <= j < |init| ==> init[j] == rays[j];
    }
  }

  /** `MaxTagged` bounds every tagged hit distance and, when positive, is attained. */
  lemma {:induction false} MaxTaggedIsMax(rays: seq<RayResult>, tags: seq<string>)
    ensures MaxTagged(rays, tags) >= 0.0
    ensures forall k :: 0 <= k < |rays| && Tagged(rays[k], tags) ==> rays[k].distance <= MaxTagged(rays, tags)
    ensures MaxTagged(rays, tags) > 0.0 ==>
              exists k :: 0 <= k < |rays| && Tagged(rays[k], tags) && rays[k].distance == MaxTagged(rays, tags)
  {
    if |rays| > 0 {
      var init := rays[..|rays| - 1];
      MaxTaggedIsMax(init, tags);
      assert forall j :: 0 <= j < |init| ==> init[j] == rays[j];
    }
  }

  /** `MinTagged` is the smallest tagged hit distance whenever there is a tagged hit. */
  lemma {:induction false} MinTaggedIsMin(rays: seq<RayResult>, tags: seq<string>)
    requires RaysWithin(rays, FloatMax)
    ensures forall k :: 0 <= k < |rays| && Tagged(rays[k], tags) ==> MinTagged(rays, tags) <= rays[k].distance
    ensures AnyTagged(rays, tags) ==>
              exists k :: 0 <= k < |rays| && Tagged(rays[k], tags) && rays[k].distance == MinTagged(rays, tags)
  {
    if |rays| > 0 {
      var init := rays[..|rays| - 1];
      assert forall j :: 0 <= j < |init| ==> init[j] == rays[j];
      MinTaggedIsMin(init, tags);
      if !AnyTagged(init, tags) && Tagged(rays[|rays| - 1], tags) {
        MinTaggedNoHit(init, tags);
      }
    }
  }

  lemma {:induction false} MinTaggedNoHit(rays: seq<RayResult>, tags: seq<string>)
    requires !AnyTagged(rays, tags)
    ensures MinTagged(rays, tags) == FloatMax
  {
    if |rays| > 0 {
      var init := rays[..|rays| - 1];
      assert forall j :: 0 <= j < |init| ==> init[j] == rays[j];
      MinTaggedNoHit(init, tags);
    }
  }

  /** `Farthest` is the first tagged hit of maximal distance, provided that
      distance is positive; otherwise the scan keeps the forward direction. */
  lemma {:induction false} FarthestIsFirstMaximal(rays: seq<RayResult>, tags: seq<string>)
    ensures Farthest(rays, tags).Some? ==>
              var j := Farthest(rays, tags).value;
              j < |rays| && Tagged(rays[j], tags) && rays[j].distance == MaxTagged(rays, tags) > 0.0 &&
              (forall k :: 0 <= k < |rays| && Tagged(rays[k], tags) ==> rays[k].distance <= rays[j].distance) &&
              (forall k :: 0 <= k < j && Tagged(rays[k], tags) ==> rays[k].distance < rays[j].distance)
    ensures Farthest(rays, tags).None? <==> MaxTagged(rays, tags) == 0.0
  {
    MaxTaggedIsMax(rays, tags);
    if |rays| > 0 {
      var init := rays[..|rays| - 1];
      assert forall j :: 0 <= j < |init| ==> init[j] == rays[j];
      FarthestIsFirstMaximal(init, tags);
      MaxTaggedIsMax(init, tags);
    }
  }

  /** The avoidance decision in terms of the raw rays: head for ray `k`
      exactly when some tagged obstacle was hit, ray `k` is clear and every
      later ray hit something. */
  lemma TowardClearIffLastClear(rays: seq<RayResult>, tags: seq<string>, k: nat)
    ensures Decide(rays, tags) == TowardClear(k)
            <==> AnyTagged(rays, tags) && k < |rays| && rays[k].Miss? && forall j :: k < j < |rays| ==> rays[j].Hit?
  {
    LastClearIsLast(rays);
  }

  /** With a tagged obstacle and no clear ray, the boid steers sideways off
      the first farthest tagged hit (or off its forward direction when every
      tagged hit is at distance 0), with strength 2.5. */
  lemma LateralWhenBoxedIn(rays: seq<RayResult>, tags: seq<string>, forward: Vec3,
                           rotate: (real, Vec3) -> Vec3, norm: Vec3 -> Vec3)
    requires AnyTagged(rays, tags)
    requires forall j :: 0 <= j < |rays| ==> rays[j].Hit?
    ensures AvoidanceForce(Decide(rays, tags), forward, rotate, norm)
            == Scale(norm(CrossUp(BestDirection(rays, tags, forward, rotate))), 2.5)
  {
    LastClearIsLast(rays);
  }

  /** While an obstacle is detected the speed never drops below 0.5, and it
      never rises above a previous speed of at least 0.5. */
  lemma ThrottleBounds(speed: real, rays: seq<RayResult>, tags: seq<string>, checkDistance: real)
    requires checkDistance > 0.0
    requires AnyTagged(rays, tags)
    ensures NextSpeed(speed, rays, tags, checkDistance) >= 0.5
    ensures speed >= 0.5 ==> NextSpeed(speed, rays, tags, checkDistance) <= speed
  {
    var f := Clamp01(MinTagged(rays, tags) / checkDistance);
    if speed >= 0.5 {
      assert speed * f <= speed * 1.0;
    }
  }

  /** Without a tagged obstacle the speed moves halfway towards 2 and the
      avoidance force is zero. */
  lemma RelaxWithoutObstacle(speed: real, rays: seq<RayResult>, tags: seq<string>, checkDistance: real,
                             forward: Vec3, rotate: (real, Vec3) -> Vec3, norm: Vec3 -> Vec3)
    requires checkDistance > 0.0
    requires !AnyTagged(rays, tags)
    ensures NextSpeed(speed, rays, tags, checkDistance) == (speed + 2.0) / 2.0
    ensures AvoidanceForce(Decide(rays, tags), forward, rotate, norm) == Zero
  {
  }

  /** Two scans that agree on which rays are clear, which are tagged hits and
      how far the tagged hits are, decide and throttle alike: an untagged hit
      plays no part. */
  predicate SameObstacleView(a: seq<RayResult>, b: seq<RayResult>, tags: seq<string>) {
    |a| == |b| &&
    forall i :: 0 <= i < |a| ==>
      (a[i].Miss? <==> b[i].Miss?) && (Tagged(a[i], tags) <==> Tagged(b[i], tags)) &&
      (Tagged(a[i], tags) ==> a[i].distance == b[i].distance)
  }

  lemma {:induction false} SameViewSameScan(a: seq<RayResult>, b: seq<RayResult>, tags: seq<string>)
    requires SameObstacleView(a, b, tags)
    ensures LastClear(a) == LastClear(b)
    ensures MaxTagged(a, tags) == MaxTagged(b, tags)
    ensures MinTagged(a, tags) == MinTagged(b, tags)
    ensures Farthest(a, tags) == Farthest(b, tags)
    ensures AnyTagged(a, tags) == AnyTagged(b, tags)
  {
    if |a| > 0 {
      var n := |a| - 1;
      assert SameObstacleView(a[..n], b[..n], tags);
      SameViewSameScan(a[..n], b[..n], tags);
      assert AnyTagged(a, tags) ==> AnyTagged(b, tags) by {
        if AnyTagged(a, tags) {
          var i :| 0 <= i < |a| && Tagged(a[i], tags);
          assert Tagged(b[i], tags);
        }
      }
      assert AnyTagged(b, tags) ==> AnyTagged(a, tags) by {
        if AnyTagged(b, tags) {
          var i :| 0 <= i < |b| && Tagged(b[i], tags);
          assert Tagged(a[i], tags);
        }
      }
    }
  }

  /** Replacing one untagged hit by any other untagged hit, at any distance,
      changes neither the avoidance decision nor the new speed. */
  lemma UntaggedHitIgnored(rays: seq<RayResult>, tags: seq<string>, i: nat, tag: string, d: real,
                           speed: real, checkDistance: real)
    requires i < |rays| && rays[i].Hit? && rays[i].tag !in tags && tag !in tags
    requires checkDistance > 0.0
    ensures Decide(rays[i := Hit(tag, d)], tags) == Decide(rays, tags)
    ensures NextSpeed(speed, rays[i := Hit(tag, d)], tags, checkDistance) == NextSpeed(speed, rays, tags, checkDistance)
  {
    var swapped := rays[i := Hit(tag, d)];
    SameViewSameScan(swapped, rays, tags);
    assert MinTagged(swapped, tags) == MinTagged(rays, tags);
    assert AnyTagged(swapped, tags) == AnyTagged(rays, tags);
  }

  // ---------------------------------------------------------------------
  // Property of the blend

  /** A non-zero weighted avoidance force takes 80% of the acceleration:
      the result is 0.2 * sum + 0.8 * avoidance; otherwise it is the sum. */
  lemma BlendWeighsAvoidance(align: Vec3, cohere: Vec3, separate: Vec3, seek: Vec3, avoid: Vec3, w: Weights)
    ensures var sum := Add(Add(Add(Scale(align, w.alignment), Scale(cohere, w.cohesion)),
                               Scale(separate, w.separation)), Scale(seek, w.targetFollow));
            var avoidance := Scale(avoid, w.obstacleAvoidance);
            Blend(align, cohere, separate, seek, avoid, w)
              == if avoidance == Zero then sum else Add(Scale(sum, 0.2), Scale(avoidance, 0.8))
  {
  }
}
