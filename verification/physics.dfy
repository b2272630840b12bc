/** The boundary of the Ammo.js (Bullet) physics world as the engine sees it:
    bodies with a mass, a collision shape, an activation state, an optional
    motion state and a linear velocity. Integration itself is opaque: it is
    supplied as an `Integrator` function. */
module Physics {

  import opened Options
  import opened Geometry

  /** Bullet's initial activation state of a fresh body (ACTIVE_TAG). */
  const ACTIVE_TAG: int := 1

  /** Bullet's DISABLE_DEACTIVATION: the body never goes to sleep. */
  const DISABLE_DEACTIVATION: int := 4

  /** Upper bound on the internal substeps of one `stepSimulation` call. */
  const MAX_SUBSTEPS: int := 10

  /** Collision margin set on every shape the factory builds. */
  const COLLISION_MARGIN: real := 0.05

  /** Uniform downward gravity of the world. */
  const GRAVITY: Vec3 := Vec3(0.0, -9.8, 0.0)

  /** Corners of the axis-sweep broadphase volume. */
  const BROADPHASE_MIN: Vec3 := Vec3(-1000.0, -1000.0, -1000.0)
  const BROADPHASE_MAX: Vec3 := Vec3(1000.0, 1000.0, 1000.0)

  /** Convex collision shapes: a box by its half extents, a sphere by its radius. */
  datatype Shape =
    | BoxShape(halfExtents: Vec3, margin: real)
    | SphereShape(radius: real, margin: real)

  /** A rigid body. `motionState` is the integrator's authoritative pose, or
      `None` for a body built without a motion state. */
  datatype Body = Body(
    mass: real,
    shape: Shape,
    activationState: int,
    motionState: Option<Transform>,
    linearVelocity: Vec3)

  /** A dynamics world: gravity, broadphase bounds and the bodies added to it,
      in the order they were added. */
  datatype World = World(gravity: Vec3, aabbMin: Vec3, aabbMax: Vec3, bodies: seq<Body>)

  /** The world `new btDiscreteDynamicsWorld(...)` plus `setGravity` build. */
  function NewWorld(): (w: World)
    ensures w.bodies == []
    ensures w.gravity.y < 0.0 && w.gravity.x == 0.0 && w.gravity.z == 0.0
  {
    World(GRAVITY, BROADPHASE_MIN, BROADPHASE_MAX, [])
  }

  /** What the integrator reports for one body after a step: its pose, its
      linear velocity (gravity and contact impulses act on it) and the
      activation state the island manager gives it. */
  datatype Motion = Motion(pose: Transform, velocity: Vec3, activation: int)

  /** The opaque physics integrator: given the world before the step, the
      elapsed time and the substep bound, the motion of body `i`. */
  type Integrator = (World, real, int, nat) -> Motion

  /** `physicsWorld.stepSimulation(dt, maxSubSteps)`: every body takes the
      velocity the integrator reports, and the pose too when it has a motion
      state; a body whose deactivation is disabled stays so, any other body
      may be put to sleep or woken. Mass and shape never change. */
  function StepSimulation(w: World, integrate: Integrator, dt: real, maxSubSteps: int): (r: World)
    ensures r.gravity == w.gravity && r.aabbMin == w.aabbMin && r.aabbMax == w.aabbMax
    ensures |r.bodies| == |w.bodies|
    ensures forall i :: 0 <= i < |w.bodies| ==>
      && r.bodies[i].mass == w.bodies[i].mass
      && r.bodies[i].shape == w.bodies[i].shape
      && r.bodies[i].linearVelocity == integrate(w, dt, maxSubSteps, i).velocity
      && r.bodies[i].motionState.Some? == w.bodies[i].motionState.Some?
    ensures forall i :: 0 <= i < |w.bodies| ==>
      (w.bodies[i].activationState == DISABLE_DEACTIVATION ==> r.bodies[i].activationState == DISABLE_DEACTIVATION)
    ensures forall i :: 0 <= i < |w.bodies| && w.bodies[i].motionState.Some? ==>
      r.bodies[i].motionState == Some(integrate(w, dt, maxSubSteps, i).pose)
  {
    var stepped := seq(|w.bodies|, i requires 0 <= i < |w.bodies| =>
      var m := integrate(w, dt, maxSubSteps, i);
      w.bodies[i].(
        motionState := if w.bodies[i].motionState.Some? then Some(m.pose) else None,
        linearVelocity := m.velocity,
        activationState :=
          if w.bodies[i].activationState == DISABLE_DEACTIVATION then DISABLE_DEACTIVATION else m.activation));
    w.(bodies := stepped)
  }
}
