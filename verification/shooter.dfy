/** The `MouseShooter` class: every shot spawns one ball one unit ahead of
    the camera along the view ray and launches it along that ray. The ray
    (THREE's `Raycaster.setFromCamera` through the screen centre) is an input. */
module Shooting {

  import opened Options
  import opened Geometry
  import opened Physics
  import opened Render
  import opened Simulation
  import opened ShapeFactory

  /** Launch speed along the ray direction. */
  const LAUNCH_SPEED: real := 80.0

  /** The dark grey Phong material every ball shares. */
  const BALL_MATERIAL: Material := Phong(0x202020)

  datatype MouseShooter = MouseShooter(radius: real, mass: real)

  /** A picking ray: its origin and its (unit) direction. */
  datatype Ray = Ray(origin: Vec3, direction: Vec3)

  /** `shoot()`: a sphere of the shooter's radius and mass at origin +
      direction, unrotated, casting and receiving shadows, whose body moves
      at 80 times the direction; exactly one pair is added and nothing that
      was already there changes. */
  function Shoot(e: Engine, s: MouseShooter, ray: Ray): (r: Engine)
    ensures AddsOne(e, r, s.mass)
    ensures var o := r.scene[|e.scene|];
      && o.geometry == SphereGeometry(s.radius, SPHERE_WIDTH_SEGMENTS, SPHERE_HEIGHT_SEGMENTS)
      && o.material == BALL_MATERIAL
      && o.position == Add(ray.direction, ray.origin)
      && o.quaternion == IDENTITY
      && o.castShadow && o.receiveShadow
    ensures var b := r.world.bodies[|e.world.bodies|];
      && b.mass == s.mass
      && b.shape == SphereShape(s.radius, COLLISION_MARGIN)
      && b.motionState == Some(Transform(Add(ray.direction, ray.origin), IDENTITY))
      && b.linearVelocity == Scale(ray.direction, LAUNCH_SPEED)
    ensures Valid(e) ==> Valid(r)
  {
    var c := CreateSphere(e, s.radius, s.mass, Add(ray.direction, ray.origin), IDENTITY, BALL_MATERIAL);
    var e1 := SetShadows(c.engine, c.mesh);
    assert e1.scene[..|e.scene|] == c.engine.scene[..|e.scene|];
    SetVelocity(e1, e1.scene[c.mesh].physicsBody.value, Scale(ray.direction, LAUNCH_SPEED))
  }

  /** `body.setLinearVelocity(v)`: only that body's velocity changes; its
      mass and activation state, and so the registry invariant, are kept. */
  function SetVelocity(e: Engine, body: nat, v: Vec3): (r: Engine)
    requires body < |e.world.bodies|
    ensures r.scene == e.scene && r.rigidBodies == e.rigidBodies
    ensures r.world.gravity == e.world.gravity && r.world.aabbMin == e.world.aabbMin && r.world.aabbMax == e.world.aabbMax
    ensures |r.world.bodies| == |e.world.bodies|
    ensures forall i :: 0 <= i < |e.world.bodies| && i != body ==> r.world.bodies[i] == e.world.bodies[i]
    ensures r.world.bodies[body] == e.world.bodies[body].(linearVelocity := v)
    ensures Valid(e) ==> Valid(r)
  {
    var r := e.(world := e.world.(bodies := e.world.bodies[body := e.world.bodies[body].(linearVelocity := v)]));
    assert Valid(e) ==> Valid(r) by {
      if Valid(e) {
        forall k | 0 <= k < |r.scene|
          ensures (k in r.rigidBodies <==> r.world.bodies[k].mass > 0.0)
        {
          assert r.world.bodies[k].mass == e.world.bodies[k].mass;
        }
        forall j | 0 <= j < |r.rigidBodies|
          ensures r.world.bodies[r.rigidBodies[j]].activationState == DISABLE_DEACTIVATION
        {
          assert r.world.bodies[r.rigidBodies[j]].activationState == e.world.bodies[r.rigidBodies[j]].activationState;
        }
      }
    }
    r
  }

  /** For a unit direction the launch speed is exactly 80. */
  lemma LaunchSpeed(ray: Ray)
    requires Dot(ray.direction, ray.direction) == 1.0
    ensures Dot(Scale(ray.direction, LAUNCH_SPEED), Scale(ray.direction, LAUNCH_SPEED)) == LAUNCH_SPEED * LAUNCH_SPEED
  {
    ScaledLength(ray.direction, LAUNCH_SPEED);
  }

  /** One shot per ray, in order. N shots add exactly N objects and N
      bodies and never remove or alter one; every ball of positive mass joins
      the registry, in shot order; the i-th new body flies at 80 times the
      i-th ray direction. Consistency is `ShotsKeepValid`. */
  function ShootAll(e: Engine, s: MouseShooter, rays: seq<Ray>): (r: Engine)
    ensures |r.scene| == |e.scene| + |rays| && r.scene[..|e.scene|] == e.scene
    ensures |r.world.bodies| == |e.world.bodies| + |rays| && r.world.bodies[..|e.world.bodies|] == e.world.bodies
    ensures r.rigidBodies == e.rigidBodies + (if s.mass > 0.0 then Range(|e.scene|, |rays|) else [])
    ensures forall i :: 0 <= i < |rays| ==>
      r.world.bodies[|e.world.bodies| + i].linearVelocity == Scale(rays[i].direction, LAUNCH_SPEED)
    decreases |rays|
  {
    if |rays| == 0 then e
    else
      var e1 := Shoot(e, s, rays[0]);
      var r := ShootAll(e1, s, rays[1..]);
      ShotsStep(e, e1, r, s, rays);
      r
  }

  /** The inductive step of `ShootAll`: the first shot by hand, the rest by
      the recursive call. */
  lemma ShotsStep(e: Engine, e1: Engine, r: Engine, s: MouseShooter, rays: seq<Ray>)
    requires |rays| > 0
    requires AddsOne(e, e1, s.mass)
    requires e1.world.bodies[|e.world.bodies|].linearVelocity == Scale(rays[0].direction, LAUNCH_SPEED)
    requires |r.scene| == |e1.scene| + |rays[1..]| && r.scene[..|e1.scene|] == e1.scene
    requires |r.world.bodies| == |e1.world.bodies| + |rays[1..]| && r.world.bodies[..|e1.world.bodies|] == e1.world.bodies
    requires r.rigidBodies == e1.rigidBodies + (if s.mass > 0.0 then Range(|e1.scene|, |rays[1..]|) else [])
    requires forall i :: 0 <= i < |rays[1..]| ==>
      r.world.bodies[|e1.world.bodies| + i].linearVelocity == Scale(rays[1..][i].direction, LAUNCH_SPEED)
    ensures |r.scene| == |e.scene| + |rays| && r.scene[..|e.scene|] == e.scene
    ensures |r.world.bodies| == |e.world.bodies| + |rays| && r.world.bodies[..|e.world.bodies|] == e.world.bodies
    ensures r.rigidBodies == e.rigidBodies + (if s.mass > 0.0 then Range(|e.scene|, |rays|) else [])
    ensures forall i :: 0 <= i < |rays| ==>
      r.world.bodies[|e.world.bodies| + i].linearVelocity == Scale(rays[i].direction, LAUNCH_SPEED)
  {
    var n := |e.scene|;
    var b := |e.world.bodies|;
    assert r.scene[..n] == e.scene by {
      assert r.scene[..n] == r.scene[..n + 1][..n];
    }
    assert r.world.bodies[..b] == e.world.bodies by {
      assert r.world.bodies[..b] == r.world.bodies[..b + 1][..b];
    }
    if s.mass > 0.0 {
      assert Range(n, |rays|) == [n] + Range(n + 1, |rays| - 1);
    }
    forall i | 0 <= i < |rays|
      ensures r.world.bodies[b + i].linearVelocity == Scale(rays[i].direction, LAUNCH_SPEED)
    {
      if i == 0 {
        assert r.world.bodies[b] == r.world.bodies[..b + 1][b];
      } else {
        assert rays[i] == rays[1..][i - 1];
        assert b + i == (b + 1) + (i - 1);
      }
    }
  }

  /** A burst of shots keeps the engine's bookkeeping consistent. */
  lemma {:induction false} ShotsKeepValid(e: Engine, s: MouseShooter, rays: seq<Ray>)
    requires Valid(e)
    ensures Valid(ShootAll(e, s, rays))
    decreases |rays|
  {
    if |rays| > 0 {
      ShotsKeepValid(Shoot(e, s, rays[0]), s, rays[1..]);
    }
  }
}
