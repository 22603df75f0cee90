/** The player's charge attack (Assets/Player/Player.cs, class `PlayerTest`):
    a key press starts a half-second charge unless one is running; while it
    runs, the player moves forward at three times its speed, boid collisions
    are ignored, and every boid the overlap query finds is damaged and
    knocked back once per charge. Also the falling step of the frame update
    and the two stat upgrades.

    The charge coroutine is a start step (`PressCharge`, which runs up to
    the first `yield`) and a per-frame step (`ResumeCharge`). The overlap
    query, the normalisation, the distance and the player's position after
    `CharacterController.Move` are oracle inputs. `Boid.TakeDamage` (not
    defined in the code base), `Rigidbody.AddForce`, `CharacterController.Move`
    and `Physics.IgnoreLayerCollision` are recorded in a ghost event log. */
module Charging {
  import opened Scene
  import opened Flocking

  /** `chargeTime` of the coroutine. */
  const ChargeTime := 0.5

  /** `chargeSpeed = speed * 3f`. */
  const ChargeSpeedFactor := 3.0

  /** Calls the player makes into other components. */
  datatype Event =
    | Damaged(boid: Boid, amount: real)    // boid.TakeDamage(amount)
    | Knocked(boid: Boid, force: Vec3)     // boidRb.AddForce(force, ForceMode.VelocityChange)
    | BoidCollisions(ignored: bool)        // Physics.IgnoreLayerCollision(playerLayer, boidLayer, ignored)
    | Moved(delta: Vec3)                   // controller.Move(delta)

  /** What a knockback pass needs of the player: where it stands and its stats. */
  datatype Strike = Strike(origin: Vec3, damage: real, impactForce: real, radius: real, upward: real)

  /** `Mathf.Clamp01(1 - distance / knockbackRadius)`. */
  function ForceScale(distance: real, radius: real): (r: real)
    requires radius > 0.0
    ensures 0.0 <= r <= 1.0
  {
    Clamp01(1.0 - distance / radius)
  }

  /** The push fades with distance: full at the player, none from the
      knockback radius outwards, and never stronger further away. */
  lemma ForceScaleFades(d1: real, d2: real, radius: real)
    requires radius > 0.0 && d1 <= d2
    ensures ForceScale(d1, radius) >= ForceScale(d2, radius)
    ensures d2 >= radius ==> ForceScale(d2, radius) == 0.0
    ensures d1 <= 0.0 ==> ForceScale(d1, radius) == 1.0
  {
    assert d2 / radius - d1 / radius == (d2 - d1) / radius;
    if d2 >= radius {
      assert d2 / radius >= 1.0;
    }
    if d1 <= 0.0 {
      assert d1 / radius <= 0.0;
    }
  }

  /** The horizontal push away from the player, scaled by the impact force
      and the fading scale, plus a fixed upward kick. */
  function KnockbackForce(st: Strike, p: Vec3, dist: (Vec3, Vec3) -> real, norm: Vec3 -> Vec3): Vec3
    requires st.radius > 0.0
  {
    var forceDirection := norm(Vec3(p.x - st.origin.x, 0.0, p.z - st.origin.z));
    var forceScale := ForceScale(dist(st.origin, p), st.radius);
    Add(Scale(Scale(forceDirection, st.impactForce), forceScale), Vec3(0.0, st.upward, 0.0))
  }

  /** A boid at or beyond the knockback radius is only lifted, not pushed. */
  lemma EdgeOnlyLifts(st: Strike, p: Vec3, dist: (Vec3, Vec3) -> real, norm: Vec3 -> Vec3)
    requires st.radius > 0.0 && dist(st.origin, p) >= st.radius
    ensures KnockbackForce(st, p, dist, norm) == Vec3(0.0, st.upward, 0.0)
  {
    ForceScaleFades(dist(st.origin, p), dist(st.origin, p), st.radius);
  }

  /** One result of the overlap query, as the engine reports it: the
      collider's `Boid` component (null when it has none), its transform
      position and whether a `Rigidbody` is attached. */
  datatype Collider = Collider(boid: Boid?, position: Vec3, hasBody: bool)

  /** The boid a query result names, as a set: empty for a collider
      without a `Boid` component. */
  function BoidOf(c: Collider): set<Boid> {
    if c.boid != null then {c.boid} else {}
  }

  /** The boids among the overlap query's results. */
  function NonNull(s: seq<Collider>): set<Boid>
    decreases |s|
  {
    if |s| == 0 then {} else BoidOf(s[0]) + NonNull(s[1..])
  }

  lemma {:induction false} NonNullMembers(s: seq<Collider>, b: Boid)
    ensures b in NonNull(s) <==> exists i :: 0 <= i < |s| && s[i].boid == b
    decreases |s|
  {
    if |s| > 0 {
      NonNullMembers(s[1..], b);
      if exists i :: 0 <= i < |s| && s[i].boid == b {
        var i :| 0 <= i < |s| && s[i].boid == b;
        if i > 0 {
          assert s[1..][i - 1].boid == b;
        }
      }
      if exists i :: 0 <= i < |s| - 1 && s[1..][i].boid == b {
        var i :| 0 <= i < |s| - 1 && s[1..][i].boid == b;
        assert s[i + 1].boid == b;
      }
    }
  }

  /** The events the knockback loop logs for one query result `c`, with
      `hit` the boids hit so far in this charge: a boid not hit yet takes
      damage and, if it has a rigid body, a knockback. */
  function Knock(st: Strike, hit: set<Boid>, c: Collider, dist: (Vec3, Vec3) -> real, norm: Vec3 -> Vec3): seq<Event>
    requires st.radius > 0.0
  {
    if c.boid != null && c.boid !in hit then
      [Damaged(c.boid, st.damage)] + if c.hasBody then [Knocked(c.boid, KnockbackForce(st, c.position, dist, norm))] else []
    else []
  }

  /** The events of one knockback pass over the query results `overlap`,
      with `hit` the boids already hit in this charge. */
  function HitEvents(st: Strike, hit: set<Boid>, overlap: seq<Collider>,
                     dist: (Vec3, Vec3) -> real, norm: Vec3 -> Vec3): seq<Event>
    requires st.radius > 0.0
    decreases |overlap|
  {
    if |overlap| == 0 then []
    else Knock(st, hit, overlap[0], dist, norm) + HitEvents(st, hit + BoidOf(overlap[0]), overlap[1..], dist, norm)
  }

  /** The loop step of a knockback pass: the events of one query result
      followed by those of the rest are the events of the pass from there. */
  lemma KnockStep(st: Strike, hit: set<Boid>, before: seq<Event>, s: seq<Collider>, i: nat,
                  dist: (Vec3, Vec3) -> real, norm: Vec3 -> Vec3)
    requires st.radius > 0.0 && i < |s|
    ensures (before + Knock(st, hit, s[i], dist, norm)) + HitEvents(st, hit + BoidOf(s[i]), s[i + 1..], dist, norm)
            == before + HitEvents(st, hit, s[i..], dist, norm)
    ensures (hit + BoidOf(s[i])) + NonNull(s[i + 1..]) == hit + NonNull(s[i..])
  {
    assert s[i..][1..] == s[i + 1..];
  }

  /** How many times the log records damage to boid `b`. */
  function DamageCount(log: seq<Event>, b: Boid): nat
    decreases |log|
  {
    if |log| == 0 then 0
    else DamageCount(log[..|log| - 1], b) + if log[|log| - 1].Damaged? && log[|log| - 1].boid == b then 1 else 0
  }

  lemma {:induction false} DamageCountAppend(a: seq<Event>, c: seq<Event>, b: Boid)
    ensures DamageCount(a + c, b) == DamageCount(a, b) + DamageCount(c, b)
    decreases |c|
  {
    if |c| > 0 {
      DamageCountAppend(a, c[..|c| - 1], b);
      assert (a + c)[..|a + c| - 1] == a + c[..|c| - 1];
      assert (a + c)[|a + c| - 1] == c[|c| - 1];
    } else {
      assert a + c == a;
    }
  }

  /** The boids the log records damage to. */
  function DamagedSet(log: seq<Event>): set<Boid>
    decreases |log|
  {
    if |log| == 0 then {}
    else DamagedSet(log[..|log| - 1]) + if log[|log| - 1].Damaged? then {log[|log| - 1].boid} else {}
  }

  lemma {:induction false} DamagedSetAppend(a: seq<Event>, c: seq<Event>)
    ensures DamagedSet(a + c) == DamagedSet(a) + DamagedSet(c)
    decreases |c|
  {
    if |c| > 0 {
      DamagedSetAppend(a, c[..|c| - 1]);
      assert (a + c)[..|a + c| - 1] == a + c[..|c| - 1];
      assert (a + c)[|a + c| - 1] == c[|c| - 1];
    } else {
      assert a + c == a;
    }
  }

  /** A boid the log never damages has a damage count of zero, and one it
      does damage a count of at least one. */
  lemma {:induction false} DamageCountPositive(log: seq<Event>, b: Boid)
    ensures DamageCount(log, b) > 0 <==> b in DamagedSet(log)
    decreases |log|
  {
    if |log| > 0 {
      DamageCountPositive(log[..|log| - 1], b);
    }
  }

  /** One knockback pass damages exactly the boids it finds that were not hit
      before. */
  lemma {:induction false} HitEventsDamaged(st: Strike, seen: set<Boid>, overlap: seq<Collider>,
                                            dist: (Vec3, Vec3) -> real, norm: Vec3 -> Vec3)
    requires st.radius > 0.0
    ensures DamagedSet(HitEvents(st, seen, overlap, dist, norm)) == NonNull(overlap) - seen
    decreases |overlap|
  {
    if |overlap| > 0 {
      var c := overlap[0];
      var head := Knock(st, seen, c, dist, norm);
      HitEventsDamaged(st, seen + BoidOf(c), overlap[1..], dist, norm);
      DamagedSetAppend(head, HitEvents(st, seen + BoidOf(c), overlap[1..], dist, norm));
      KnockDamaged(st, seen, c, dist, norm);
    }
  }

  /** ... and each of them exactly once, however often the query lists it. */
  lemma {:induction false} HitEventsDamageOnce(st: Strike, seen: set<Boid>, overlap: seq<Collider>,
                                              dist: (Vec3, Vec3) -> real, norm: Vec3 -> Vec3, b: Boid)
    requires st.radius > 0.0
    ensures DamageCount(HitEvents(st, seen, overlap, dist, norm), b) ==
              if b !in seen && b in NonNull(overlap) then 1 else 0
    decreases |overlap|
  {
    if |overlap| > 0 {
      var c := overlap[0];
      var head := Knock(st, seen, c, dist, norm);
      HitEventsDamageOnce(st, seen + BoidOf(c), overlap[1..], dist, norm, b);
      DamageCountAppend(head, HitEvents(st, seen + BoidOf(c), overlap[1..], dist, norm), b);
      KnockDamaged(st, seen, c, dist, norm);
    }
  }

  /** The events for one query result damage its boid once, and only when
      it was not hit before. */
  lemma KnockDamaged(st: Strike, hit: set<Boid>, c: Collider, dist: (Vec3, Vec3) -> real, norm: Vec3 -> Vec3)
    requires st.radius > 0.0
    ensures DamagedSet(Knock(st, hit, c, dist, norm)) == BoidOf(c) - hit
    ensures forall b: Boid :: DamageCount(Knock(st, hit, c, dist, norm), b) ==
              if b in BoidOf(c) - hit then 1 else 0
  {
    var k := Knock(st, hit, c, dist, norm);
    if k != [] {
      var d := [Damaged(c.boid, st.damage)];
      assert k == d + k[1..];
      assert d[..0] == [];
      DamagedSetAppend(d, k[1..]);
      if c.hasBody {
        assert k[1..][..0] == [];
      }
      forall b: Boid
        ensures DamageCount(k, b) == if b in BoidOf(c) - hit then 1 else 0
      {
        DamageCountAppend(d, k[1..], b);
      }
    }
  }

  /** Once-per-charge damage survives a knockback pass: if so far exactly the
      boids in `seen` were damaged, once each, then after the pass exactly
      those and the newly found boids are, still once each. */
  lemma KnockbackPassOnce(before: seq<Event>, st: Strike, seen: set<Boid>, overlap: seq<Collider>,
                          dist: (Vec3, Vec3) -> real, norm: Vec3 -> Vec3)
    requires st.radius > 0.0
    requires DamagedSet(before) == seen
    requires forall b :: b in seen ==> DamageCount(before, b) == 1
    ensures DamagedSet(before + HitEvents(st, seen, overlap, dist, norm)) == seen + NonNull(overlap)
    ensures forall b :: b in seen + NonNull(overlap) ==>
              DamageCount(before + HitEvents(st, seen, overlap, dist, norm), b) == 1
  {
    var pass := HitEvents(st, seen, overlap, dist, norm);
    DamagedSetAppend(before, pass);
    HitEventsDamaged(st, seen, overlap, dist, norm);
    forall b | b in seen + NonNull(overlap)
      ensures DamageCount(before + pass, b) == 1
    {
      DamageCountAppend(before, pass, b);
      HitEventsDamageOnce(st, seen, overlap, dist, norm, b);
      DamageCountPositive(before, b);
    }
  }

  /** Once-per-charge damage survives a whole charge frame: a move, then a
      knockback pass. */
  lemma FrameOnce(log: seq<Event>, start: nat, e: Event, st: Strike, seen: set<Boid>, overlap: seq<Collider>,
                  dist: (Vec3, Vec3) -> real, norm: Vec3 -> Vec3)
    requires start <= |log| && !e.Damaged? && st.radius > 0.0
    requires DamagedSet(log[start..]) == seen
    requires forall b :: b in seen ==> DamageCount(log[start..], b) == 1
    ensures DamagedSet((log + [e] + HitEvents(st, seen, overlap, dist, norm))[start..]) == seen + NonNull(overlap)
    ensures forall b :: b in seen + NonNull(overlap) ==>
              DamageCount((log + [e] + HitEvents(st, seen, overlap, dist, norm))[start..], b) == 1
  {
    var pass := HitEvents(st, seen, overlap, dist, norm);
    var moved := (log + [e])[start..];
    assert DamagedSet(moved) == seen && forall b :: b in seen ==> DamageCount(moved, b) == 1 by {
      QuietEvent(log, start, e);
    }
    KnockbackPassOnce(moved, st, seen, overlap, dist, norm);
    assert (log + [e] + pass)[start..] == moved + pass;
  }

  /** Logging anything but damage leaves every damage count as it was. */
  lemma QuietEvent(log: seq<Event>, start: nat, e: Event)
    requires start <= |log| && !e.Damaged?
    ensures forall b: Boid :: DamageCount((log + [e])[start..], b) == DamageCount(log[start..], b)
    ensures DamagedSet((log + [e])[start..]) == DamagedSet(log[start..])
  {
    assert (log + [e])[start..] == log[start..] + [e];
    DamagedSetAppend(log[start..], [e]);
    assert [e][..0] == [];
    forall b: Boid
      ensures DamageCount((log + [e])[start..], b) == DamageCount(log[start..], b)
    {
      DamageCountAppend(log[start..], [e], b);
      assert [e][..0] == [];
    }
  }

  class Player {
    var damage: real
    var impactForce: real
    var knockbackRadius: real
    var knockbackUpwardForce: real
    var speed: real
    var gravity: real
    var forward: Vec3               // transform.forward
    var velocityY: real             // velocity.y; its x and z stay 0
    var isCharging: bool
    var hitBoids: set<Boid>
    var collisionsIgnored: bool     // the player/boid layer-collision setting
    var chargeSpeed: real           // the running charge's chargeSpeed
    var elapsedTime: real           // the running charge's elapsedTime
    ghost var log: seq<Event>
    ghost var chargeStart: nat      // where the latest charge's events begin in the log

    function StrikeOf(at: Vec3): Strike
      reads this`damage, this`impactForce, this`knockbackRadius, this`knockbackUpwardForce
    {
      Strike(at, damage, impactForce, knockbackRadius, knockbackUpwardForce)
    }

    /** The player invariant: boid collisions are ignored exactly while a
        charge runs, and since the latest charge began exactly the boids in
        `hitBoids` have been damaged, each of them exactly once. */
    ghost predicate Valid()
      reads this`knockbackRadius, this`chargeStart, this`log, this`collisionsIgnored, this`isCharging, this`hitBoids
    {
      knockbackRadius > 0.0 && chargeStart <= |log| &&
      collisionsIgnored == isCharging &&
      DamagedSet(log[chargeStart..]) == hitBoids &&
      forall b :: b in hitBoids ==> DamageCount(log[chargeStart..], b) == 1
    }

    constructor (forward: Vec3)
      ensures Valid()
      ensures damage == 2.0 && impactForce == 10.0 && knockbackRadius == 5.0 && knockbackUpwardForce == 5.0
      ensures speed == 5.0 && gravity == 9.81 && velocityY == 0.0 && this.forward == forward
      ensures !isCharging && hitBoids == {} && log == []
    {
      damage, impactForce, knockbackRadius, knockbackUpwardForce := 2.0, 10.0, 5.0, 5.0;
      speed, gravity, this.forward, velocityY := 5.0, 9.81, forward, 0.0;
      isCharging, hitBoids, collisionsIgnored := false, {}, false;
      chargeSpeed, elapsedTime := 0.0, 0.0;
      log, chargeStart := [], 0;
    }

    /** The falling part of the frame update: on the ground the vertical
        velocity is reset; in the air gravity pulls it down and the player is
        moved by it. */
    method ApplyGravity(grounded: bool, dt: real)
      requires Valid()
      modifies this`velocityY, this`log
      ensures Valid()
      ensures grounded ==> velocityY == 0.0 && log == old(log)
      ensures !grounded ==> velocityY == old(velocityY) - gravity * dt &&
                            log == old(log) + [Moved(Scale(Vec3(0.0, velocityY, 0.0), dt))]
    {
      if !grounded {
        velocityY := velocityY - gravity * dt;
        QuietEvent(log, chargeStart, Moved(Scale(Vec3(0.0, velocityY, 0.0), dt)));
        log := log + [Moved(Scale(Vec3(0.0, velocityY, 0.0), dt))];
      } else {
        velocityY := 0.0;
      }
    }

    /** The key press of the frame update: ignored while a charge runs;
        otherwise a new charge begins with an empty hit set and ignored boid
        collisions, and its first frame runs at once. */
    method PressCharge(at: Vec3, overlap: seq<Collider>, dist: (Vec3, Vec3) -> real, norm: Vec3 -> Vec3, dt: real)
      requires Valid()
      modifies this`isCharging, this`hitBoids, this`chargeStart, this`log,
               this`collisionsIgnored, this`chargeSpeed, this`elapsedTime
      ensures Valid()
      ensures damage == old(damage) && speed == old(speed) && knockbackRadius == old(knockbackRadius)
      ensures old(isCharging) ==>
                isCharging && hitBoids == old(hitBoids) && log == old(log) &&
                elapsedTime == old(elapsedTime) && chargeSpeed == old(chargeSpeed) &&
                chargeStart == old(chargeStart) && collisionsIgnored == old(collisionsIgnored)
      ensures !old(isCharging) ==>
                isCharging && collisionsIgnored && chargeStart == |old(log)| &&
                chargeSpeed == speed * ChargeSpeedFactor && elapsedTime == dt &&
                hitBoids == NonNull(overlap) &&
                log == old(log) + [BoidCollisions(true), Moved(Scale(Scale(forward, chargeSpeed), dt))] +
                       old(HitEvents(StrikeOf(at), {}, overlap, dist, norm))
    {
      if isCharging {
        return;
      }
      StartCharge();
      ChargeFrame(at, overlap, dist, norm, dt);
    }

    /** The opening of the charge coroutine, up to its loop: charging, an
        empty hit set, boid collisions ignored, the charge speed fixed at three
        times the current speed and no time elapsed. */
    method StartCharge()
      requires Valid()
      modifies this`isCharging, this`hitBoids, this`chargeStart, this`log,
               this`collisionsIgnored, this`chargeSpeed, this`elapsedTime
      ensures Valid()
      ensures isCharging && hitBoids == {} && collisionsIgnored
      ensures chargeStart == |old(log)| && log == old(log) + [BoidCollisions(true)]
      ensures chargeSpeed == speed * ChargeSpeedFactor && elapsedTime == 0.0
    {
      isCharging := true;
      hitBoids := {};
      chargeStart := |log|;
      log := log + [BoidCollisions(true)];
      assert log[chargeStart..] == [BoidCollisions(true)];
      assert [BoidCollisions(true)][..0] == [];
      collisionsIgnored := true;
      chargeSpeed := speed * ChargeSpeedFactor;
      elapsedTime := 0.0;
    }

    /** A later frame of the running charge: another charge frame while the
        elapsed time is below the charge time; otherwise boid collisions are
        restored and the charge ends. */
    method ResumeCharge(at: Vec3, overlap: seq<Collider>, dist: (Vec3, Vec3) -> real, norm: Vec3 -> Vec3, dt: real)
      requires Valid() && isCharging
      modifies this`log, this`hitBoids, this`elapsedTime, this`collisionsIgnored, this`isCharging
      ensures Valid()
      ensures old(elapsedTime) < ChargeTime ==>
                isCharging && elapsedTime == old(elapsedTime) + dt &&
                hitBoids == old(hitBoids) + NonNull(overlap) &&
                log == old(log) + [Moved(Scale(Scale(forward, chargeSpeed), dt))] +
                       old(HitEvents(StrikeOf(at), hitBoids, overlap, dist, norm))
      ensures old(elapsedTime) >= ChargeTime ==>
                !isCharging && !collisionsIgnored && hitBoids == old(hitBoids) &&
                log == old(log) + [BoidCollisions(false)]
    {
      if elapsedTime < ChargeTime {
        ChargeFrame(at, overlap, dist, norm, dt);
      } else {
        QuietEvent(log, chargeStart, BoidCollisions(false));
        log := log + [BoidCollisions(false)];
        collisionsIgnored := false;
        isCharging := false;
      }
    }

    /** One pass of the charge loop: move forward at charge speed, knock back
        what the overlap query finds, count the frame time. */
    method ChargeFrame(at: Vec3, overlap: seq<Collider>, dist: (Vec3, Vec3) -> real, norm: Vec3 -> Vec3, dt: real)
      requires Valid()
      modifies this`log, this`hitBoids, this`elapsedTime
      ensures Valid()
      ensures elapsedTime == old(elapsedTime) + dt
      ensures hitBoids == old(hitBoids) + NonNull(overlap)
      ensures log == old(log) + [Moved(Scale(Scale(forward, chargeSpeed), dt))] +
                     old(HitEvents(StrikeOf(at), hitBoids, overlap, dist, norm))
    {
      ghost var pass := HitEvents(StrikeOf(at), hitBoids, overlap, dist, norm);
      FrameOnce(log, chargeStart, Moved(Scale(Scale(forward, chargeSpeed), dt)), StrikeOf(at), hitBoids, overlap, dist, norm);
      log := log + [Moved(Scale(Scale(forward, chargeSpeed), dt))];
      ApplyKnockback(at, overlap, dist, norm);
      assert log == old(log) + [Moved(Scale(Scale(forward, chargeSpeed), dt))] + pass;
      elapsedTime := elapsedTime + dt;
    }

    /** ApplyKnockback at the player's position `at`: every boid the query
        finds joins the hit set; those not hit before in this charge are
        damaged and knocked back, once each. */
    method ApplyKnockback(at: Vec3, overlap: seq<Collider>, dist: (Vec3, Vec3) -> real, norm: Vec3 -> Vec3)
      requires knockbackRadius > 0.0
      modifies this`hitBoids, this`log
      ensures hitBoids == old(hitBoids) + NonNull(overlap)
      ensures log == old(log) + old(HitEvents(StrikeOf(at), hitBoids, overlap, dist, norm))
    {
      ghost var seen := hitBoids;
      ghost var st := StrikeOf(at);
      var i := 0;
      while i < |overlap|
        invariant 0 <= i <= |overlap|
        invariant hitBoids + NonNull(overlap[i..]) == seen + NonNull(overlap)
        invariant log + HitEvents(st, hitBoids, overlap[i..], dist, norm) == old(log) + HitEvents(st, seen, overlap, dist, norm)
        invariant StrikeOf(at) == st
      {
        ghost var before := log;
        ghost var hit := hitBoids;
        KnockOne(at, overlap[i], dist, norm);
        KnockStep(st, hit, before, overlap, i, dist, norm);
        i := i + 1;
      }
      assert overlap[i..] == [];
    }

    /** One iteration of the knockback loop: a boid not yet hit is damaged
        and, when it has a rigidbody, knocked back. */
    method KnockOne(at: Vec3, c: Collider, dist: (Vec3, Vec3) -> real, norm: Vec3 -> Vec3)
      requires knockbackRadius > 0.0
      modifies this`hitBoids, this`log
      ensures hitBoids == old(hitBoids) + BoidOf(c)
      ensures log == old(log) + Knock(StrikeOf(at), old(hitBoids), c, dist, norm)
    {
      var boid := c.boid;
      if boid != null && boid !in hitBoids {
        hitBoids := hitBoids + {boid};
        log := log + [Damaged(boid, damage)];
        if c.hasBody {
          var knockbackForce := KnockbackForce(StrikeOf(at), c.position, dist, norm);
          log := log + [Knocked(boid, knockbackForce)];
        }
      }
    }

    /** UpgradeDamage: one more point of damage per hit. */
    method UpgradeDamage()
      requires Valid()
      modifies this`damage
      ensures Valid()
      ensures damage == old(damage) + 1.0
    {
      damage := damage + 1.0;
    }

    /** UpgradeRange: raises the movement speed (and so the next charge's
        speed); the knockback radius stays as it is. */
    method UpgradeRange()
      requires Valid()
      modifies this`speed
      ensures Valid()
      ensures speed == old(speed) + 1.0 && knockbackRadius == old(knockbackRadius)
    {
      speed := speed + 1.0;
    }
  }
}
