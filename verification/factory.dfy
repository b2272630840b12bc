/** The `ShapeFactory` class: every `create*` builds one mesh and one matching
    rigid body at the same pose and registers the pair with the engine; the
    wall helpers lay out bricks on the grid of `WallLayout`. */
module ShapeFactory {

  import opened Options
  import opened Geometry
  import opened Physics
  import opened Render
  import opened Simulation
  import opened WallLayout

  /** Brick dimensions: 3 long, 1.5 high, 1.5 deep. */
  const BRICK_LENGTH: real := 3.0
  const BRICK_HEIGHT: real := 1.5
  const BRICK_DEPTH: real := 1.5

  /** A brick's centre sits half a course above its course's base. */
  const HALF_COURSE: real := 0.75

  /** The rotation a Z wall's bricks share: THREE's `setFromAxisAngle` of
      the vertical axis and 90 degrees, that is (0, sin 45, 0, cos 45), with
      the sine and cosine as the double values the browser returns. */
  const QUARTER_TURN_Y: Quat := Quat(0.0, 0.7071067811865475, 0.0, 0.7071067811865476)

  const SPHERE_WIDTH_SEGMENTS: nat := 18
  const SPHERE_HEIGHT_SEGMENTS: nat := 16

  /** `QUARTER_TURN_Y` is a rotation about the vertical axis only, by a
      quarter turn: its axis part is (0, y, 0) with y > 0, its two halves
      agree (a half angle of 45 degrees) and its norm is 1, each up to
      double rounding. */
  lemma QuarterTurnAboutY()
    ensures QUARTER_TURN_Y.x == 0.0 && QUARTER_TURN_Y.z == 0.0
    ensures QUARTER_TURN_Y.y > 0.0 && QUARTER_TURN_Y.w > 0.0
    ensures -0.000000000000001 < QUARTER_TURN_Y.w - QUARTER_TURN_Y.y < 0.000000000000001
    ensures -0.000000000000001 < QUARTER_TURN_Y.y * QUARTER_TURN_Y.y + QUARTER_TURN_Y.w * QUARTER_TURN_Y.w - 1.0 < 0.000000000000001
  {
  }

  /** What a `create*` call returns: the engine after registration and the
      identity of the new mesh. */
  datatype Created = Created(engine: Engine, mesh: nat)

  /** The body `createRigidBody` builds: the given mass and shape, a motion
      state at the given pose, at rest, not yet told to stay awake. */
  function NewBody(shape: Shape, mass: real, pos: Vec3, quat: Quat): Body
  {
    Body(mass, shape, ACTIVE_TAG, Some(Transform(pos, quat)), ZERO)
  }

  /** `createRigidBody`: builds the body at the mesh's pose and hands the
      pair to `addPhysicsObject` with the same mass. */
  function CreateRigidBody(e: Engine, threeObject: RenderObject, shape: Shape, mass: real, pos: Vec3, quat: Quat): (r: Engine)
    ensures AddsOne(e, r, mass)
    ensures r.scene[|e.scene|] == threeObject.(physicsBody := Some(|e.world.bodies|))
    ensures var b := r.world.bodies[|e.world.bodies|];
      && b.mass == mass && b.shape == shape
      && b.motionState == Some(Transform(pos, quat))
      && b.linearVelocity == ZERO
      && (mass > 0.0 ==> b.activationState == DISABLE_DEACTIVATION)
    ensures Valid(e) ==> Valid(r)
  {
    AddPhysicsObject(e, threeObject, NewBody(shape, mass, pos, quat), mass)
  }

  /** `createParalellepiped(sx, sy, sz, mass, pos, quat, material)`: a box
      mesh of size sx x sy x sz and a box body of half extents s * 0.5 and
      margin 0.05, both at (pos, quat), registered as one pair. */
  function CreateParalellepiped(e: Engine, sx: real, sy: real, sz: real, mass: real, pos: Vec3, quat: Quat, material: Material): (c: Created)
    ensures c.mesh == |e.scene|
    ensures AddsOne(e, c.engine, mass)
    ensures var o := c.engine.scene[c.mesh];
      && o.geometry == BoxGeometry(sx, sy, sz) && o.material == material
      && o.position == pos && o.quaternion == quat
      && !o.castShadow && !o.receiveShadow
    ensures var b := c.engine.world.bodies[|e.world.bodies|];
      && b.mass == mass
      && b.shape == BoxShape(Vec3(sx * 0.5, sy * 0.5, sz * 0.5), COLLISION_MARGIN)
      && b.motionState == Some(Transform(pos, quat))
    ensures Valid(e) ==> Valid(c.engine)
  {
    var threeObject := NewMesh(BoxGeometry(sx, sy, sz), material, pos, quat);
    var shape := BoxShape(Vec3(sx * 0.5, sy * 0.5, sz * 0.5), COLLISION_MARGIN);
    Created(CreateRigidBody(e, threeObject, shape, mass, pos, quat), |e.scene|)
  }

  /** `createSphere(radius, mass, pos, quat, material)`: an 18 x 16 segment
      sphere mesh and a sphere body of the same radius and margin 0.05, both
      at (pos, quat), registered as one pair. */
  function CreateSphere(e: Engine, radius: real, mass: real, pos: Vec3, quat: Quat, material: Material): (c: Created)
    ensures c.mesh == |e.scene|
    ensures AddsOne(e, c.engine, mass)
    ensures var o := c.engine.scene[c.mesh];
      && o.geometry == SphereGeometry(radius, SPHERE_WIDTH_SEGMENTS, SPHERE_HEIGHT_SEGMENTS)
      && o.material == material
      && o.position == pos && o.quaternion == quat
      && !o.castShadow && !o.receiveShadow
    ensures var b := c.engine.world.bodies[|e.world.bodies|];
      && b.mass == mass
      && b.shape == SphereShape(radius, COLLISION_MARGIN)
      && b.motionState == Some(Transform(pos, quat))
      && b.linearVelocity == ZERO
    ensures Valid(e) ==> Valid(c.engine)
  {
    var threeObject := NewMesh(SphereGeometry(radius, SPHERE_WIDTH_SEGMENTS, SPHERE_HEIGHT_SEGMENTS), material, pos, quat);
    var shape := SphereShape(radius, COLLISION_MARGIN);
    Created(CreateRigidBody(e, threeObject, shape, mass, pos, quat), |e.scene|)
  }

  /** `obstacle.castShadow = true; obstacle.receiveShadow = true`: only the
      two flags of that one mesh change. */
  function SetShadows(e: Engine, mesh: nat): (r: Engine)
    requires mesh < |e.scene|
    ensures r.world == e.world && r.rigidBodies == e.rigidBodies
    ensures |r.scene| == |e.scene|
    ensures forall k :: 0 <= k < |e.scene| && k != mesh ==> r.scene[k] == e.scene[k]
    ensures r.scene[mesh].castShadow && r.scene[mesh].receiveShadow
    ensures r.scene[mesh] == e.scene[mesh].(castShadow := true, receiveShadow := true)
    ensures Valid(e) ==> Valid(r)
  {
    e.(scene := e.scene[mesh := e.scene[mesh].(castShadow := true, receiveShadow := true)])
  }

  /** `Math.floor(Math.random() * material.length)`, for the draw `draw`. */
  function MaterialIndex(draw: real, count: nat): (i: int)
    ensures 0.0 <= draw < 1.0 && count > 0 ==> 0 <= i < count
  {
    var x := draw * count as real;
    assert 0.0 <= draw < 1.0 && count > 0 ==> 0.0 <= x < count as real;
    x.Floor
  }

  /** `material[i]`: out of range it is `undefined`, for which THREE's mesh
      falls back to its default material. */
  function MaterialAt(materials: seq<Material>, i: int): Material
  {
    if 0 <= i < |materials| then materials[i] else DefaultBasic
  }

  /** The consecutive identities `lo, lo + 1, ..., lo + n - 1`. */
  function Range(lo: nat, n: nat): seq<nat>
  {
    seq(n, i requires 0 <= i < n => lo + i)
  }

  /** Object `o` is a registered brick at `pos` with rotation `quat`,
      material `material`, casting and receiving shadows. */
  ghost predicate IsBrick(o: RenderObject, pos: Vec3, quat: Quat, material: Material)
  {
    && o.geometry == BoxGeometry(BRICK_LENGTH, BRICK_HEIGHT, BRICK_DEPTH)
    && o.material == material
    && o.position == pos && o.quaternion == quat
    && o.castShadow && o.receiveShadow
  }

  /** Body `b` is the box body of a brick of mass `mass` at (pos, quat). */
  ghost predicate IsBrickBody(b: Body, mass: real, pos: Vec3, quat: Quat)
  {
    && b.mass == mass
    && b.shape == BoxShape(Vec3(BRICK_LENGTH * 0.5, BRICK_HEIGHT * 0.5, BRICK_DEPTH * 0.5), COLLISION_MARGIN)
    && b.motionState == Some(Transform(pos, quat))
  }

  /** One pass of the brick loop body: a 3 x 1.5 x 1.5 box at `pos`, then
      both shadow flags on. */
  function PlaceBrick(e: Engine, pos: Vec3, quat: Quat, mass: real, material: Material): (r: Engine)
    ensures AddsOne(e, r, mass)
    ensures IsBrick(r.scene[|e.scene|], pos, quat, material)
    ensures IsBrickBody(r.world.bodies[|e.world.bodies|], mass, pos, quat)
    ensures Valid(e) ==> Valid(r)
  {
    var c := CreateParalellepiped(e, BRICK_LENGTH, BRICK_HEIGHT, BRICK_DEPTH, mass, pos, quat, material);
    var r := SetShadows(c.engine, c.mesh);
    assert r.scene[..|e.scene|] == c.engine.scene[..|e.scene|];
    r
  }

  /** `r` is `e` with one registered brick per position in `spots`
      appended, in order: brick `i` is a 3 x 1.5 x 1.5 box at `spots[i]`
      with the material of draw `k + i` and both shadow flags on, and its
      body has mass `mass`; all the new bricks join the registry exactly
      when `mass > 0`; nothing that was already there changes. */
  ghost predicate PlacedRun(e: Engine, r: Engine, spots: seq<Vec3>, quat: Quat, mass: real, materials: seq<Material>, rand: nat -> real, k: nat)
  {
    && |r.scene| == |e.scene| + |spots| && r.scene[..|e.scene|] == e.scene
    && |r.world.bodies| == |e.world.bodies| + |spots| && r.world.bodies[..|e.world.bodies|] == e.world.bodies
    && r.world.gravity == e.world.gravity
    && r.rigidBodies == e.rigidBodies + (if mass > 0.0 then Range(|e.scene|, |spots|) else [])
    && BricksAt(r.scene, |e.scene|, spots, quat, materials, rand, k)
    && BodiesAt(r.world.bodies, |e.world.bodies|, spots, quat, mass)
  }

  /** From index `base` on, `sr` holds one brick per spot, brick `i` at
      `spots[i]` with the material of draw `k + i`. */
  ghost predicate BricksAt(sr: seq<RenderObject>, base: nat, spots: seq<Vec3>, quat: Quat, materials: seq<Material>, rand: nat -> real, k: nat)
  {
    forall i :: 0 <= i < |spots| ==>
      base + i < |sr| && IsBrick(sr[base + i], spots[i], quat, MaterialAt(materials, MaterialIndex(rand(k + i), |materials|)))
  }

  /** From index `base` on, `wr` holds one brick body of mass `mass` per
      spot, body `i` at `spots[i]`. */
  ghost predicate BodiesAt(wr: seq<Body>, base: nat, spots: seq<Vec3>, quat: Quat, mass: real)
  {
    forall i :: 0 <= i < |spots| ==>
      base + i < |wr| && IsBrickBody(wr[base + i], mass, spots[i], quat)
  }

  /** The brick loop body, once per position in `spots`: a 3 x 1.5 x 1.5 box
      with a randomly drawn material (draw `k + i` for the `i`-th brick),
      then both shadow flags. */
  function PlaceBricks(e: Engine, spots: seq<Vec3>, quat: Quat, mass: real, materials: seq<Material>, rand: nat -> real, k: nat): (r: Engine)
    ensures PlacedRun(e, r, spots, quat, mass, materials, rand, k)
    decreases |spots|
  {
    if |spots| == 0 then
      assert e.scene[..|e.scene|] == e.scene && e.world.bodies[..|e.world.bodies|] == e.world.bodies;
      e
    else
      var material := MaterialAt(materials, MaterialIndex(rand(k), |materials|));
      var e1 := PlaceBrick(e, spots[0], quat, mass, material);
      var r := PlaceBricks(e1, spots[1..], quat, mass, materials, rand, k + 1);
      PlaceBricksStep(e, e1, r, spots, quat, mass, materials, rand, k);
      r
  }

  /** The inductive step of `PlaceBricks`: one brick placed by hand, the rest
      by the recursive call. */
  lemma PlaceBricksStep(e: Engine, e1: Engine, r: Engine, spots: seq<Vec3>, quat: Quat, mass: real, materials: seq<Material>, rand: nat -> real, k: nat)
    requires |spots| > 0
    requires AddsOne(e, e1, mass)
    requires IsBrick(e1.scene[|e.scene|], spots[0], quat, MaterialAt(materials, MaterialIndex(rand(k), |materials|)))
    requires IsBrickBody(e1.world.bodies[|e.world.bodies|], mass, spots[0], quat)
    requires PlacedRun(e1, r, spots[1..], quat, mass, materials, rand, k + 1)
    ensures PlacedRun(e, r, spots, quat, mass, materials, rand, k)
  {
    var n := |e.scene|;
    BricksStep(e.scene, e1.scene, r.scene, spots, quat, materials, rand, k);
    BodiesStep(e.world.bodies, e1.world.bodies, r.world.bodies, spots, quat, mass);
    if mass > 0.0 {
      assert Range(n, |spots|) == [n] + Range(n + 1, |spots| - 1);
    }
  }

  /** The scene half of `PlaceBricksStep`. */
  lemma BricksStep(s: seq<RenderObject>, s1: seq<RenderObject>, sr: seq<RenderObject>, spots: seq<Vec3>, quat: Quat, materials: seq<Material>, rand: nat -> real, k: nat)
    requires |spots| > 0
    requires |s1| == |s| + 1 && s1[..|s|] == s
    requires IsBrick(s1[|s|], spots[0], quat, MaterialAt(materials, MaterialIndex(rand(k), |materials|)))
    requires |sr| == |s1| + |spots| - 1 && sr[..|s1|] == s1
    requires BricksAt(sr, |s1|, spots[1..], quat, materials, rand, k + 1)
    ensures sr[..|s|] == s
    ensures BricksAt(sr, |s|, spots, quat, materials, rand, k)
  {
    var n := |s|;
    assert sr[..n] == sr[..n + 1][..n];
    forall i | 0 <= i < |spots|
      ensures IsBrick(sr[n + i], spots[i], quat, MaterialAt(materials, MaterialIndex(rand(k + i), |materials|)))
    {
      if i == 0 {
        assert sr[n] == sr[..n + 1][n];
      } else {
        assert spots[i] == spots[1..][i - 1] && k + i == k + 1 + (i - 1) && n + i == (n + 1) + (i - 1);
      }
    }
  }

  /** The world half of `PlaceBricksStep`. */
  lemma BodiesStep(w: seq<Body>, w1: seq<Body>, wr: seq<Body>, spots: seq<Vec3>, quat: Quat, mass: real)
    requires |spots| > 0
    requires |w1| == |w| + 1 && w1[..|w|] == w
    requires IsBrickBody(w1[|w|], mass, spots[0], quat)
    requires |wr| == |w1| + |spots| - 1 && wr[..|w1|] == w1
    requires BodiesAt(wr, |w1|, spots[1..], quat, mass)
    ensures wr[..|w|] == w
    ensures BodiesAt(wr, |w|, spots, quat, mass)
  {
    var b := |w|;
    assert wr[..b] == wr[..b + 1][..b];
    forall i | 0 <= i < |spots|
      ensures IsBrickBody(wr[b + i], mass, spots[i], quat)
    {
      if i == 0 {
        assert wr[b] == wr[..b + 1][b];
      } else {
        assert spots[i] == spots[1..][i - 1] && b + i == (b + 1) + (i - 1);
      }
    }
  }

  /** A run of bricks keeps the engine invariant. */
  lemma {:induction false} BricksKeepValid(e: Engine, spots: seq<Vec3>, quat: Quat, mass: real, materials: seq<Material>, rand: nat -> real, k: nat)
    requires Valid(e)
    ensures Valid(PlaceBricks(e, spots, quat, mass, materials, rand, k))
    decreases |spots|
  {
    if |spots| > 0 {
      var material := MaterialAt(materials, MaterialIndex(rand(k), |materials|));
      BricksKeepValid(PlaceBrick(e, spots[0], quat, mass, material), spots[1..], quat, mass, materials, rand, k + 1);
    }
  }

  /** Brick centres of a wall along X at depth `z`. */
  function SpotsAlongX(cells: seq<Cell>, z: real): seq<Vec3>
  {
    seq(|cells|, i requires 0 <= i < |cells| => Vec3(cells[i].along, cells[i].y + HALF_COURSE, z))
  }

  /** Brick centres of a wall along Z at abscissa `x`. */
  function SpotsAlongZ(cells: seq<Cell>, x: real): seq<Vec3>
  {
    seq(|cells|, i requires 0 <= i < |cells| => Vec3(x, cells[i].y + HALF_COURSE, cells[i].along))
  }

  /** Brick `i` of the run from `e` to `r` along X is centred on cell `i`,
      half a course up, at depth `z`, and turned by `quat`. */
  ghost predicate CentredAlongX(e: Engine, r: Engine, cells: seq<Cell>, z: real, quat: Quat)
  {
    forall i :: 0 <= i < |cells| ==>
      && |e.scene| + i < |r.scene|
      && r.scene[|e.scene| + i].position == Vec3(cells[i].along, cells[i].y + HALF_COURSE, z)
      && r.scene[|e.scene| + i].quaternion == quat
  }

  /** Brick `i` of the run from `e` to `r` along Z is centred at abscissa
      `x`, half a course up, on cell `i`, and turned by `quat`. */
  ghost predicate CentredAlongZ(e: Engine, r: Engine, cells: seq<Cell>, x: real, quat: Quat)
  {
    forall i :: 0 <= i < |cells| ==>
      && |e.scene| + i < |r.scene|
      && r.scene[|e.scene| + i].position == Vec3(x, cells[i].y + HALF_COURSE, cells[i].along)
      && r.scene[|e.scene| + i].quaternion == quat
  }

  /** Where the bricks of a run along X sit: brick `i` at cell `i`, half a
      course up, at depth `z`, all turned by `quat`. */
  lemma CentresAlongX(e: Engine, r: Engine, cells: seq<Cell>, z: real, quat: Quat, mass: real, materials: seq<Material>, rand: nat -> real)
    requires PlacedRun(e, r, SpotsAlongX(cells, z), quat, mass, materials, rand, 0)
    ensures CentredAlongX(e, r, cells, z, quat)
  {
    var spots := SpotsAlongX(cells, z);
    assert |spots| == |cells|;
    forall i | 0 <= i < |cells|
      ensures r.scene[|e.scene| + i].position == spots[i] && r.scene[|e.scene| + i].quaternion == quat
      ensures spots[i] == Vec3(cells[i].along, cells[i].y + HALF_COURSE, z)
    {
      assert IsBrick(r.scene[|e.scene| + i], spots[i], quat, MaterialAt(materials, MaterialIndex(rand(i), |materials|)));
    }
  }

  /** Where the bricks of a run along Z sit: brick `i` at abscissa `x`, half
      a course up, at cell `i`, all turned by `quat`. */
  lemma CentresAlongZ(e: Engine, r: Engine, cells: seq<Cell>, x: real, quat: Quat, mass: real, materials: seq<Material>, rand: nat -> real)
    requires PlacedRun(e, r, SpotsAlongZ(cells, x), quat, mass, materials, rand, 0)
    ensures CentredAlongZ(e, r, cells, x, quat)
  {
    var spots := SpotsAlongZ(cells, x);
    assert |spots| == |cells|;
    forall i | 0 <= i < |cells|
      ensures r.scene[|e.scene| + i].position == spots[i] && r.scene[|e.scene| + i].quaternion == quat
      ensures spots[i] == Vec3(x, cells[i].y + HALF_COURSE, cells[i].along)
    {
      assert IsBrick(r.scene[|e.scene| + i], spots[i], quat, MaterialAt(materials, MaterialIndex(rand(i), |materials|)));
    }
  }

  /** `createWall_X_axis(mass, startX, endX, yCount, z, shift, material)`:
      one unrotated brick per slot of the closed-form grid, in grid order,
      centred at (slot + offset, course base + 0.75, z), with the material of
      draw `i` for brick `i`; the registry grows by exactly the new bricks
      when `mass > 0`, and nothing else changes. */
  function CreateWall_X_axis(e: Engine, mass: real, startX: real, endX: real, yCount: real, z: real, shift: bool, materials: seq<Material>, rand: nat -> real): (r: Engine)
    ensures PlacedRun(e, r, SpotsAlongX(Slots(startX, endX, yCount, shift), z), IDENTITY, mass, materials, rand, 0)
    ensures |r.scene| == |e.scene| + CourseCount(yCount) * PerCourse(startX, endX)
    ensures CentredAlongX(e, r, Slots(startX, endX, yCount, shift), z, IDENTITY)
    ensures Valid(e) ==> Valid(r)
  {
    var spots := SpotsAlongX(Grid(startX, endX, yCount, shift), z);
    assert spots == SpotsAlongX(Slots(startX, endX, yCount, shift), z) by {
      GridIsSlots(startX, endX, yCount, shift);
    }
    assert |spots| == CourseCount(yCount) * PerCourse(startX, endX) by {
      GridLength(startX, endX, yCount, shift);
    }
    assert Valid(e) ==> Valid(PlaceBricks(e, spots, IDENTITY, mass, materials, rand, 0)) by {
      if Valid(e) {
        BricksKeepValid(e, spots, IDENTITY, mass, materials, rand, 0);
      }
    }
    var r := PlaceBricks(e, spots, IDENTITY, mass, materials, rand, 0);
    CentresAlongX(e, r, Slots(startX, endX, yCount, shift), z, IDENTITY, mass, materials, rand);
    r
  }

  /** `createWall_Z_axis(mass, startZ, endZ, yCount, x, shift, material)`:
      the same grid with the slot and offset on Z, every brick turned by
      `QUARTER_TURN_Y` (90 degrees about the vertical),
      centred at (x, course base + 0.75, slot + offset). */
  function CreateWall_Z_axis(e: Engine, mass: real, startZ: real, endZ: real, yCount: real, x: real, shift: bool, materials: seq<Material>, rand: nat -> real): (r: Engine)
    ensures PlacedRun(e, r, SpotsAlongZ(Slots(startZ, endZ, yCount, shift), x), QUARTER_TURN_Y, mass, materials, rand, 0)
    ensures |r.scene| == |e.scene| + CourseCount(yCount) * PerCourse(startZ, endZ)
    ensures CentredAlongZ(e, r, Slots(startZ, endZ, yCount, shift), x, QUARTER_TURN_Y)
    ensures Valid(e) ==> Valid(r)
  {
    var spots := SpotsAlongZ(Grid(startZ, endZ, yCount, shift), x);
    assert spots == SpotsAlongZ(Slots(startZ, endZ, yCount, shift), x) by {
      GridIsSlots(startZ, endZ, yCount, shift);
    }
    assert |spots| == CourseCount(yCount) * PerCourse(startZ, endZ) by {
      GridLength(startZ, endZ, yCount, shift);
    }
    assert Valid(e) ==> Valid(PlaceBricks(e, spots, QUARTER_TURN_Y, mass, materials, rand, 0)) by {
      if Valid(e) {
        BricksKeepValid(e, spots, QUARTER_TURN_Y, mass, materials, rand, 0);
      }
    }
    var r := PlaceBricks(e, spots, QUARTER_TURN_Y, mass, materials, rand, 0);
    CentresAlongZ(e, r, Slots(startZ, endZ, yCount, shift), x, QUARTER_TURN_Y, mass, materials, rand);
    r
  }
}
