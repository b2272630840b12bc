/** The `Engine` class: a render scene and a physics world kept in step, and
    the registry (`rigidBodies`) of the objects whose pose is copied from
    physics to rendering every frame.

    Identity is positional: render object `k` is `scene[k]`, body `b` is
    `world.bodies[b]`. Registration appends one of each, so in every reachable
    engine object `k` owns body `k` (see `Valid`). */
module Simulation {

  import opened Options
  import opened Geometry
  import opened Physics
  import opened Render

  datatype Engine = Engine(scene: seq<RenderObject>, world: World, rigidBodies: seq<nat>)

  /** What the rendering of one frame returns to the outer loop: the engine
      after the frame, the scene as drawn, and the measured clock delta. */
  datatype Frame = Frame(engine: Engine, drawn: seq<RenderObject>, delta: real)

  /** Every registry entry names a scene object that carries a back-reference
      to a body of the world: what the pose copy needs to run. */
  ghost predicate Linked(scene: seq<RenderObject>, bodies: seq<Body>, order: seq<nat>)
  {
    forall j :: 0 <= j < |order| ==>
      && order[j] < |scene|
      && scene[order[j]].physicsBody.Some?
      && scene[order[j]].physicsBody.value < |bodies|
  }

  /** The engine invariant: object `k` owns body `k`; the registry lists, in
      registration order and once each, exactly the objects whose body has
      positive mass; and those bodies never deactivate. */
  ghost predicate Valid(e: Engine)
  {
    && |e.scene| == |e.world.bodies|
    && (forall k :: 0 <= k < |e.scene| ==> e.scene[k].physicsBody == Some(k))
    && (forall j :: 0 <= j < |e.rigidBodies| ==> e.rigidBodies[j] < |e.scene|)
    && (forall i, j :: 0 <= i < j < |e.rigidBodies| ==> e.rigidBodies[i] < e.rigidBodies[j])
    && (forall k :: 0 <= k < |e.scene| ==> (k in e.rigidBodies <==> e.world.bodies[k].mass > 0.0))
    && (forall j :: 0 <= j < |e.rigidBodies| ==>
          e.world.bodies[e.rigidBodies[j]].activationState == DISABLE_DEACTIVATION)
  }

  lemma ValidIsLinked(e: Engine)
    requires Valid(e)
    ensures Linked(e.scene, e.world.bodies, e.rigidBodies)
  {
  }

  /** `e1` is `e0` with exactly one more (object, body) pair registered with
      the given mass, everything already present left as it was. */
  ghost predicate AddsOne(e0: Engine, e1: Engine, mass: real)
  {
    && |e1.scene| == |e0.scene| + 1
    && e1.scene[..|e0.scene|] == e0.scene
    && e1.scene[|e0.scene|].physicsBody == Some(|e0.world.bodies|)
    && |e1.world.bodies| == |e0.world.bodies| + 1
    && e1.world.bodies[..|e0.world.bodies|] == e0.world.bodies
    && e1.world.gravity == e0.world.gravity
    && e1.world.aabbMin == e0.world.aabbMin
    && e1.world.aabbMax == e0.world.aabbMax
    && e1.rigidBodies == (if mass > 0.0 then e0.rigidBodies + [|e0.scene|] else e0.rigidBodies)
  }

  /** `new Engine(...)`: an empty scene, an empty world under gravity. */
  function NewEngine(): (e: Engine)
    ensures Valid(e)
    ensures e.scene == [] && e.rigidBodies == [] && e.world.bodies == []
    ensures e.world.gravity == GRAVITY
  {
    Engine([], NewWorld(), [])
  }

  /** `addPhysicsObject(object, body, mass)`: the object gets its
      back-reference, it joins the registry and its body stops deactivating
      exactly when `mass > 0`, and both always join the scene and the world.
      What `addRigidBody` itself does to a static body's activation state is
      Bullet's business and is not promised. */
  function AddPhysicsObject(e: Engine, obj: RenderObject, body: Body, mass: real): (r: Engine)
    ensures AddsOne(e, r, mass)
    ensures r.scene[|e.scene|] == obj.(physicsBody := Some(|e.world.bodies|))
    ensures mass > 0.0 ==> r.world.bodies[|e.world.bodies|].activationState == DISABLE_DEACTIVATION
    ensures r.world.bodies[|e.world.bodies|] == body.(activationState := r.world.bodies[|e.world.bodies|].activationState)
    ensures Valid(e) && body.mass == mass ==> Valid(r)
  {
    var linked := obj.(physicsBody := Some(|e.world.bodies|));
    var added := if mass > 0.0 then body.(activationState := DISABLE_DEACTIVATION) else body;
    var r := Engine(
      e.scene + [linked],
      e.world.(bodies := e.world.bodies + [added]),
      if mass > 0.0 then e.rigidBodies + [|e.scene|] else e.rigidBodies);
    assert r.scene[..|e.scene|] == e.scene;
    assert r.world.bodies[..|e.world.bodies|] == e.world.bodies;
    AddPreservesValid(e, r, body, mass);
    r
  }

  lemma AddPreservesValid(e: Engine, r: Engine, body: Body, mass: real)
    requires AddsOne(e, r, mass)
    requires r.world.bodies[|e.world.bodies|].mass == body.mass
    requires mass > 0.0 ==> r.world.bodies[|e.world.bodies|].activationState == DISABLE_DEACTIVATION
    ensures Valid(e) && body.mass == mass ==> Valid(r)
  {
    if Valid(e) && body.mass == mass {
      var n := |e.scene|;
      forall k | 0 <= k < |r.scene|
        ensures r.scene[k].physicsBody == Some(k)
      {
        if k < n {
          assert r.scene[k] == r.scene[..n][k];
        }
      }
      forall k | 0 <= k < |r.scene|
        ensures k in r.rigidBodies <==> r.world.bodies[k].mass > 0.0
      {
        if k < n {
          assert r.world.bodies[k] == r.world.bodies[..n][k];
          assert k in r.rigidBodies <==> k in e.rigidBodies;
        }
      }
      forall j | 0 <= j < |r.rigidBodies|
        ensures r.world.bodies[r.rigidBodies[j]].activationState == DISABLE_DEACTIVATION
      {
        if j < |e.rigidBodies| {
          var k := e.rigidBodies[j];
          assert r.world.bodies[k] == r.world.bodies[..n][k];
        }
      }
    }
  }

  /** Where the back-reference of object `k` leads: the motion state of its
      body, or `None` when it has no body or the body has no motion state. */
  function MotionOf(scene: seq<RenderObject>, bodies: seq<Body>, k: nat): Option<Transform>
    requires k < |scene|
  {
    match scene[k].physicsBody
    case Some(b) => if b < |bodies| then bodies[b].motionState else None
    case None => None
  }

  /** One iteration of the pose-copy loop: object `k` takes the world
      transform of its body's motion state, when there is one. */
  function CopyPose(scene: seq<RenderObject>, bodies: seq<Body>, k: nat): (r: seq<RenderObject>)
    requires k < |scene|
    ensures |r| == |scene|
    ensures forall i :: 0 <= i < |scene| ==> r[i].physicsBody == scene[i].physicsBody
  {
    match MotionOf(scene, bodies, k)
    case Some(t) => scene[k := Posed(scene[k], t)]
    case None => scene
  }

  /** The pose-copy loop over `order` (the registry, in insertion order).
      Whatever the order, the result is the same: an object listed in `order`
      whose body has a motion state takes that pose; every other object is
      left exactly as it was. */
  function SyncPoses(scene: seq<RenderObject>, bodies: seq<Body>, order: seq<nat>): (r: seq<RenderObject>)
    requires Linked(scene, bodies, order)
    ensures |r| == |scene|
    ensures forall k :: 0 <= k < |scene| ==>
      r[k] == (if k in order && MotionOf(scene, bodies, k).Some?
               then Posed(scene[k], MotionOf(scene, bodies, k).value)
               else scene[k])
    decreases |order|
  {
    if |order| == 0 then scene
    else
      var next := CopyPose(scene, bodies, order[0]);
      assert forall k :: 0 <= k < |scene| ==> MotionOf(next, bodies, k) == MotionOf(scene, bodies, k);
      SyncPoses(next, bodies, order[1..])
  }

  /** `updatePhysics(delta)`: step the world with at most MAX_SUBSTEPS
      substeps, then copy every registered body's pose into its object. */
  function UpdatePhysics(e: Engine, integrate: Integrator, delta: real): (r: Engine)
    requires Linked(e.scene, e.world.bodies, e.rigidBodies)
    ensures r.rigidBodies == e.rigidBodies
    ensures |r.scene| == |e.scene|
    ensures r.world == StepSimulation(e.world, integrate, delta, MAX_SUBSTEPS)
    ensures forall k :: 0 <= k < |e.scene| ==>
      r.scene[k] == (if k in e.rigidBodies && MotionOf(e.scene, r.world.bodies, k).Some?
                     then Posed(e.scene[k], MotionOf(e.scene, r.world.bodies, k).value)
                     else e.scene[k])
  {
    var w := StepSimulation(e.world, integrate, delta, MAX_SUBSTEPS);
    e.(world := w, scene := SyncPoses(e.scene, w.bodies, e.rigidBodies))
  }

  /** `update(isPhysicsEnabled)`: the physics step runs only when enabled,
      the scene is always drawn (after the step), and the measured delta is
      returned. The clock reading is the input `delta`. */
  function Update(e: Engine, isPhysicsEnabled: bool, delta: real, integrate: Integrator): (f: Frame)
    requires Linked(e.scene, e.world.bodies, e.rigidBodies)
    ensures f.delta == delta
    ensures f.drawn == f.engine.scene
    ensures !isPhysicsEnabled ==> f.engine == e
    ensures isPhysicsEnabled ==> f.engine == UpdatePhysics(e, integrate, delta)
  {
    var next := if isPhysicsEnabled then UpdatePhysics(e, integrate, delta) else e;
    Frame(next, next.scene, delta)
  }

  /** A frame keeps the engine invariant. */
  lemma UpdatePreservesValid(e: Engine, isPhysicsEnabled: bool, delta: real, integrate: Integrator)
    requires Valid(e)
    ensures Linked(e.scene, e.world.bodies, e.rigidBodies)
    ensures Valid(Update(e, isPhysicsEnabled, delta, integrate).engine)
  {
    var r := Update(e, isPhysicsEnabled, delta, integrate).engine;
    if isPhysicsEnabled {
      forall k | 0 <= k < |r.scene|
        ensures r.scene[k].physicsBody == Some(k)
      {
        assert r.scene[k].physicsBody == e.scene[k].physicsBody;
      }
    }
  }

  /** Static-body invariant: an object whose body has no positive mass is
      never moved by a frame. */
  lemma StaticObjectsStayPut(e: Engine, isPhysicsEnabled: bool, delta: real, integrate: Integrator, k: nat)
    requires Valid(e)
    requires k < |e.scene| && e.world.bodies[k].mass <= 0.0
    ensures Linked(e.scene, e.world.bodies, e.rigidBodies)
    ensures Update(e, isPhysicsEnabled, delta, integrate).engine.scene[k] == e.scene[k]
  {
    assert k !in e.rigidBodies;
  }

  /** Physics-to-render consistency: after a frame with physics on, every
      object whose body has positive mass and a motion state sits exactly at
      the pose the integrator gave its body; geometry, material, shadows and
      back-reference are untouched. */
  lemma DynamicObjectsFollowBodies(e: Engine, delta: real, integrate: Integrator, k: nat)
    requires Valid(e)
    requires k < |e.scene| && e.world.bodies[k].mass > 0.0 && e.world.bodies[k].motionState.Some?
    ensures Linked(e.scene, e.world.bodies, e.rigidBodies)
    ensures var r := Update(e, true, delta, integrate).engine;
      && r.scene[k].position == integrate(e.world, delta, MAX_SUBSTEPS, k).pose.origin
      && r.scene[k].quaternion == integrate(e.world, delta, MAX_SUBSTEPS, k).pose.rotation
      && r.scene[k].position == r.world.bodies[k].motionState.value.origin
      && r.scene[k].quaternion == r.world.bodies[k].motionState.value.rotation
      && r.scene[k] == e.scene[k].(position := r.scene[k].position, quaternion := r.scene[k].quaternion)
  {
    ValidIsLinked(e);
    var r := Update(e, true, delta, integrate).engine;
    assert r == UpdatePhysics(e, integrate, delta);
    var t := integrate(e.world, delta, MAX_SUBSTEPS, k).pose;
    assert r.world.bodies[k].motionState == Some(t);
    assert k in e.rigidBodies;
    assert MotionOf(e.scene, r.world.bodies, k) == Some(t);
    assert r.scene[k] == Posed(e.scene[k], t);
  }
}
