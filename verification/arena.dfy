/** The scene the page builds at start-up, with the arguments the page
    passes: a static 100 x 1 x 100 ground slab, then two walls along X and
    two along Z of bricks of mass 20; and one pass of the animation loop,
    which steps the engine only while the controls hold the pointer and
    then moves the controls. */
module Arena {

  import opened Options
  import opened Geometry
  import opened Physics
  import opened Render
  import opened Simulation
  import opened WallLayout
  import opened Shooting
  import opened ShapeFactory
  import opened WASD

  /** Mass of every wall brick. */
  const BRICK_MASS: real := 20.0

  /** The six grey Phong materials a brick draws from. */
  const WALL_MATERIALS: seq<Material> :=
    [Phong(0xB7B7B7), Phong(0xAAAAAA), Phong(0xA4A4A4), Phong(0x979797), Phong(0x949494), Phong(0x909090)]

  /** The white ground material. */
  const GROUND_MATERIAL: Material := Phong(0xFFFFFF)

  /** The page's shooter: balls of radius 1.2 and mass 10. */
  const SHOOTER: MouseShooter := MouseShooter(1.2, 10.0)

  /** Bricks per wall along X, and along Z. */
  const X_WALL_BRICKS: nat := 77
  const Z_WALL_BRICKS: nat := 66

  /** Draws `from`, `from + 1`, ... of the shared random source. */
  function Draws(rand: nat -> real, from: nat): nat -> real
  {
    (i: nat) => rand(from + i)
  }

  /** The ground: a static 100 x 1 x 100 white slab centred half a unit
      below the origin, casting and receiving shadows. As the first object
      it is object 0 and owns body 0, and it stays out of the registry. */
  function Ground(): (e: Engine)
    ensures |e.scene| == 1 && e.rigidBodies == [] && Valid(e)
    ensures e.world.bodies[0].mass == 0.0
    ensures e.scene[0].castShadow && e.scene[0].receiveShadow
    ensures e.scene[0].geometry == BoxGeometry(100.0, 1.0, 100.0)
    ensures e.scene[0].position == Vec3(0.0, -0.5, 0.0)
  {
    var g := CreateParalellepiped(NewEngine(), 100.0, 1.0, 100.0, 0.0, Vec3(0.0, -0.5, 0.0), IDENTITY, GROUND_MATERIAL);
    SetShadows(g.engine, g.mesh)
  }

  /** The two walls along X, at z = -9 (base course unshifted) and z = 9
      (shifted); they take draws 0 to 153 of the random source. */
  function XWalls(e: Engine, rand: nat -> real): Engine
  {
    var e1 := CreateWall_X_axis(e, BRICK_MASS, -9.0, 9.0, 15.0, -9.0, false, WALL_MATERIALS, Draws(rand, 0));
    CreateWall_X_axis(e1, BRICK_MASS, -9.0, 9.0, 15.0, 9.0, true, WALL_MATERIALS, Draws(rand, X_WALL_BRICKS))
  }

  /** The two walls along Z, at x = -9.75 (shifted) and x = 11.25
      (unshifted); they take the draws after the X walls'. */
  function ZWalls(e: Engine, rand: nat -> real): Engine
  {
    var e1 := CreateWall_Z_axis(e, BRICK_MASS, -8.25, 8.25, 15.0, -9.75, true, WALL_MATERIALS, Draws(rand, 2 * X_WALL_BRICKS));
    CreateWall_Z_axis(e1, BRICK_MASS, -8.25, 8.25, 15.0, 11.25, false, WALL_MATERIALS, Draws(rand, 2 * X_WALL_BRICKS + Z_WALL_BRICKS))
  }

  /** The four walls in source order. */
  function Walls(e: Engine, rand: nat -> real): Engine
  {
    ZWalls(XWalls(e, rand), rand)
  }

  /** The scene the page builds: the ground, then the walls. */
  function BuildArena(rand: nat -> real): Engine
  {
    Walls(Ground(), rand)
  }

  /** With heights up to 15 there are 11 courses; the X walls (-9 to 9) lay
      7 bricks per course and the Z walls (-8.25 to 8.25) 6. */
  lemma WallDimensions()
    ensures CourseCount(15.0) == 11
    ensures PerCourse(-9.0, 9.0) == 7 && PerCourse(-8.25, 8.25) == 6
    ensures |Slots(-9.0, 9.0, 15.0, false)| == X_WALL_BRICKS && |Slots(-9.0, 9.0, 15.0, true)| == X_WALL_BRICKS
    ensures |Slots(-8.25, 8.25, 15.0, false)| == Z_WALL_BRICKS && |Slots(-8.25, 8.25, 15.0, true)| == Z_WALL_BRICKS
  {
    assert 15.0 / COURSE_HEIGHT == 10.0;
    assert (9.0 - -9.0) / BRICK_PITCH == 6.0;
    assert (8.25 - -8.25) / BRICK_PITCH == 5.5;
  }

  /** Where some bricks of the first X wall (z = -9, unshifted base course)
      sit: the first brick at (-9, 0), the first of the second, shifted,
      course at (-7.5, 1.5), the last of that course at (10.5, 1.5), and the
      last brick of the wall at (9, 15). */
  lemma FirstWallCorners()
    ensures var s := Slots(-9.0, 9.0, 15.0, false);
      && |s| == 77
      && s[0] == Cell(-9.0, 0.0)
      && s[7] == Cell(-7.5, 1.5)
      && s[13] == Cell(10.5, 1.5)
      && s[76] == Cell(9.0, 15.0)
  {
    WallDimensions();
    var s := Slots(-9.0, 9.0, 15.0, false);
    assert s[7] == CellAt(-9.0, false, 1, 0);
    assert s[13] == CellAt(-9.0, false, 1, 6);
    assert s[76] == CellAt(-9.0, false, 10, 6);
  }

  /** `r` is `e` with `n` more objects and bodies appended, every one of
      them registered, in order; what `e` held is left as it was. */
  ghost predicate Extends(e: Engine, r: Engine, n: nat)
  {
    && |r.scene| == |e.scene| + n && r.scene[..|e.scene|] == e.scene
    && |r.world.bodies| == |e.world.bodies| + n && r.world.bodies[..|e.world.bodies|] == e.world.bodies
    && r.rigidBodies == e.rigidBodies + Range(|e.scene|, n)
  }

  /** Two consecutive runs of identities make one. */
  lemma RangeSplit(lo: nat, a: nat, b: nat)
    ensures Range(lo, a) + Range(lo + a, b) == Range(lo, a + b)
  {
  }

  /** Two extensions in a row make one. */
  lemma ExtendsJoin(e: Engine, m: Engine, r: Engine, a: nat, b: nat)
    requires |e.scene| == |e.world.bodies|
    requires Extends(e, m, a) && Extends(m, r, b)
    ensures Extends(e, r, a + b)
  {
    var n := |e.scene|;
    assert r.scene[..n] == e.scene by {
      assert r.scene[..n] == r.scene[..|m.scene|][..n];
    }
    assert r.world.bodies[..n] == e.world.bodies by {
      assert r.world.bodies[..n] == r.world.bodies[..|m.world.bodies|][..n];
    }
    assert r.rigidBodies == e.rigidBodies + Range(n, a + b) by {
      RangeSplit(n, a, b);
      assert (e.rigidBodies + Range(n, a)) + Range(n + a, b) == e.rigidBodies + (Range(n, a) + Range(n + a, b));
    }
  }

  /** One wall along X of the arena's size: 77 bricks of mass 20, all
      registered. */
  lemma XWallAdds(e: Engine, z: real, shift: bool, rand: nat -> real)
    ensures Extends(e, CreateWall_X_axis(e, BRICK_MASS, -9.0, 9.0, 15.0, z, shift, WALL_MATERIALS, rand), X_WALL_BRICKS)
  {
    WallDimensions();
  }

  /** One wall along Z of the arena's size: 66 bricks, likewise. */
  lemma ZWallAdds(e: Engine, x: real, shift: bool, rand: nat -> real)
    ensures Extends(e, CreateWall_Z_axis(e, BRICK_MASS, -8.25, 8.25, 15.0, x, shift, WALL_MATERIALS, rand), Z_WALL_BRICKS)
  {
    WallDimensions();
  }

  /** The X walls add 2 x 77 = 154 registered bricks. */
  lemma XWallsAdd(e: Engine, rand: nat -> real)
    requires |e.scene| == |e.world.bodies|
    ensures Extends(e, XWalls(e, rand), 154)
  {
    var e1 := CreateWall_X_axis(e, BRICK_MASS, -9.0, 9.0, 15.0, -9.0, false, WALL_MATERIALS, Draws(rand, 0));
    XWallAdds(e, -9.0, false, Draws(rand, 0));
    XWallAdds(e1, 9.0, true, Draws(rand, X_WALL_BRICKS));
    ExtendsJoin(e, e1, XWalls(e, rand), 77, 77);
  }

  /** The Z walls add 2 x 66 = 132 registered bricks. */
  lemma ZWallsAdd(e: Engine, rand: nat -> real)
    requires |e.scene| == |e.world.bodies|
    ensures Extends(e, ZWalls(e, rand), 132)
  {
    var e1 := CreateWall_Z_axis(e, BRICK_MASS, -8.25, 8.25, 15.0, -9.75, true, WALL_MATERIALS, Draws(rand, 2 * X_WALL_BRICKS));
    ZWallAdds(e, -9.75, true, Draws(rand, 2 * X_WALL_BRICKS));
    ZWallAdds(e1, 11.25, false, Draws(rand, 2 * X_WALL_BRICKS + Z_WALL_BRICKS));
    ExtendsJoin(e, e1, ZWalls(e, rand), 66, 66);
  }

  /** All four walls: 154 + 132 = 286 registered bricks after whatever the
      engine held, in creation order. */
  lemma WallsAdd(e: Engine, rand: nat -> real)
    requires |e.scene| == |e.world.bodies|
    ensures Extends(e, Walls(e, rand), 286)
  {
    var e1 := XWalls(e, rand);
    XWallsAdd(e, rand);
    ZWallsAdd(e1, rand);
    ExtendsJoin(e, e1, Walls(e, rand), 154, 132);
  }

  /** The arena is the ground followed by 286 registered bricks. */
  lemma ArenaShape(rand: nat -> real)
    ensures Extends(Ground(), BuildArena(rand), 286)
  {
    WallsAdd(Ground(), rand);
  }

  /** What an engine that is the ground plus 286 registered objects looks
      like: 287 objects; object `j + 1` is the `j`-th registry entry, so
      every brick and only the bricks are registered, in creation order;
      object 0 is still the static 100 x 1 x 100 ground slab at
      (0, -0.5, 0), casting and receiving shadows. */
  lemma ArenaLayout(e: Engine)
    requires Extends(Ground(), e, 286)
    ensures |e.scene| == 287 && |e.world.bodies| == 287
    ensures |e.rigidBodies| == 286
    ensures forall j :: 0 <= j < |e.rigidBodies| ==> e.rigidBodies[j] == j + 1
    ensures e.world.bodies[0].mass == 0.0
    ensures e.scene[0].castShadow && e.scene[0].receiveShadow
    ensures e.scene[0].geometry == BoxGeometry(100.0, 1.0, 100.0)
    ensures e.scene[0].position == Vec3(0.0, -0.5, 0.0)
  {
    var g := Ground();
    assert e.scene[0] == e.scene[..1][0] == g.scene[0];
    assert e.world.bodies[0] == e.world.bodies[..1][0] == g.world.bodies[0];
  }

  /** The arena satisfies the engine invariant, so the ground, which has
      mass 0, is the one object outside the registry. */
  lemma ArenaValid(rand: nat -> real)
    ensures Valid(BuildArena(rand))
    ensures 0 !in BuildArena(rand).rigidBodies
  {
    var e := BuildArena(rand);
    ArenaShape(rand);
    ArenaLayout(e);
  }

  /** One pass of the animation loop: the engine renders (stepping physics
      only while the controls are enabled) and reports the clock delta, and
      the controls then advance by that delta. */
  function Animate(e: Engine, c: Controls, delta: real, integrate: Integrator, turn: Turn): (r: (Frame, Controls))
    requires Valid(e)
    ensures Linked(e.scene, e.world.bodies, e.rigidBodies)
    ensures r.0 == Simulation.Update(e, c.enabled, delta, integrate)
    ensures c.enabled ==> r.0.engine == UpdatePhysics(e, integrate, delta)
    ensures r.0.delta == delta && r.1 == WASD.Update(c, delta, turn)
    ensures Valid(r.0.engine)
    ensures !c.enabled ==> r.0.engine == e && r.1 == c
  {
    ValidIsLinked(e);
    UpdatePreservesValid(e, c.enabled, delta, integrate);
    var f := Simulation.Update(e, c.enabled, delta, integrate);
    (f, WASD.Update(c, f.delta, turn))
  }

  /** What the page reacts to besides the controls' own input: a mouse
      press (on a link or not; the ray is where the camera looks), and an
      animation frame whose clock reads `delta`. */
  datatype PageEvent =
    | MouseDown(onLink: bool, ray: Ray)
    | AnimationFrame(delta: real)

  /** The page's handler for one event. A press on a link does nothing; a
      press while the pointer is free only asks for the pointer (which the
      model leaves to the capture input of the controls); a press while
      captured shoots. A frame runs `Animate`. */
  function OnPageEvent(e: Engine, c: Controls, ev: PageEvent, integrate: Integrator, turn: Turn): (r: (Engine, Controls))
    requires Valid(e)
    ensures Linked(e.scene, e.world.bodies, e.rigidBodies)
    ensures Valid(r.0)
    ensures ev.AnimationFrame? ==>
      && r.0 == Simulation.Update(e, c.enabled, ev.delta, integrate).engine
      && r.1 == WASD.Update(c, ev.delta, turn)
    ensures ev.AnimationFrame? && c.enabled ==> r.0 == UpdatePhysics(e, integrate, ev.delta)
    ensures ev.AnimationFrame? && !c.enabled ==> r == (e, c)
    ensures ev.MouseDown? ==> r.1 == c
    ensures ev.MouseDown? && !ev.onLink && c.enabled ==> AddsOne(e, r.0, SHOOTER.mass)
    ensures ev.MouseDown? && (ev.onLink || !c.enabled) ==> r.0 == e
  {
    ValidIsLinked(e);
    match ev
    case MouseDown(onLink, ray) =>
      if onLink || !c.enabled then (e, c) else (Shoot(e, SHOOTER, ray), c)
    case AnimationFrame(delta) =>
      var (f, c1) := Animate(e, c, delta, integrate, turn);
      (f.engine, c1)
  }

  /** A sequence of page events handled in order. */
  function RunPage(e: Engine, c: Controls, evs: seq<PageEvent>, integrate: Integrator, turn: Turn): (r: (Engine, Controls))
    requires Valid(e)
    ensures Valid(r.0)
    decreases |evs|
  {
    if |evs| == 0 then (e, c)
    else
      var (e1, c1) := OnPageEvent(e, c, evs[0], integrate, turn);
      RunPage(e1, c1, evs[1..], integrate, turn)
  }

  /** While the pointer is free nothing progresses: whatever presses and
      frames arrive, no ball is fired, no body moves, no pose changes and
      the rig stays where it is. */
  lemma {:induction false} FreePointerFreezes(e: Engine, c: Controls, evs: seq<PageEvent>, integrate: Integrator, turn: Turn)
    requires Valid(e) && !c.enabled
    ensures RunPage(e, c, evs, integrate, turn) == (e, c)
    decreases |evs|
  {
    if |evs| > 0 {
      var (e1, c1) := OnPageEvent(e, c, evs[0], integrate, turn);
      assert e1 == e && c1 == c;
      FreePointerFreezes(e, c, evs[1..], integrate, turn);
    }
  }

  /** While the pointer is captured, each press off a link fires exactly one
      ball: `n` such presses and nothing else add `n` objects. */
  lemma {:induction false} EachPressFires(e: Engine, c: Controls, rays: seq<Ray>, integrate: Integrator, turn: Turn)
    requires Valid(e) && c.enabled
    ensures |RunPage(e, c, Presses(rays), integrate, turn).0.scene| == |e.scene| + |rays|
    decreases |rays|
  {
    if |rays| > 0 {
      var evs := Presses(rays);
      assert evs[0] == MouseDown(false, rays[0]) && evs[1..] == Presses(rays[1..]);
      var e1 := Shoot(e, SHOOTER, rays[0]);
      EachPressFires(e1, c, rays[1..], integrate, turn);
    }
  }

  /** A press off any link per ray, in order. */
  function Presses(rays: seq<Ray>): (evs: seq<PageEvent>)
    ensures |evs| == |rays|
    ensures forall i :: 0 <= i < |rays| ==> evs[i] == MouseDown(false, rays[i])
  {
    if |rays| == 0 then [] else [MouseDown(false, rays[0])] + Presses(rays[1..])
  }
}
