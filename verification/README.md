# WebGL-Shooter core in Dafny

A model of the game logic in `app.ts` of WebGL-Shooter: a THREE.js scene
kept in step with an Ammo.js (Bullet) physics world, a factory that builds
boxes, balls and brick walls, first-person WASD controls, and a mouse
shooter that fires balls along the view ray. Rendering and physics
integration stay opaque. What the model states precisely is the
bookkeeping around them:

- which objects the engine keeps in step with their bodies;
- what a frame changes;
- where each brick of a wall goes;
- how the controls react to keys, the mouse and time;
- what a shot adds.

## Layout

| file | module | models |
|---|---|---|
| `geometry.dfy` | `Options`, `Geometry` | optional values (`undefined`), vectors, quaternions, poses |
| `physics.dfy` | `Physics` | the dynamics world as the engine sees it: bodies, activation state, motion state, the opaque step |
| `render.dfy` | `Render` | meshes, materials, shadow flags, the `userData.physicsBody` back-reference |
| `engine.dfy` | `Simulation` | `Engine`: registration, the registry of dynamic objects, the per-frame step and pose copy |
| `walls.dfy` | `WallLayout` | the brick grid of the two wall builders, literally and in closed form |
| `factory.dfy` | `ShapeFactory` | `createRigidBody`, `createParalellepiped`, `createSphere`, both wall builders |
| `shooter.dfy` | `Shooting` | `MouseShooter.shoot` |
| `wasd.dfy` | `WASD` | `WASDControls` |
| `arena.dfy` | `Arena` | the arguments the page passes (ground, four walls, shooter), the mouse-press handler and the animation loop |

## Modelling choices

- **Identity.** Object identity is position in `Engine.scene`, and body
  identity is position in `world.bodies`. `Simulation.Valid` is the
  invariant every reachable engine keeps:
  - object `k` owns body `k`;
  - the registry (`rigidBodies`) lists exactly the objects whose body has
    mass > 0, in registration order;
  - those bodies have activation state 4, so they never sleep.
- **The physics step.** `stepSimulation` is an `Integrator` function
  parameter. For each body it reports the pose the body reaches, its new
  velocity (gravity and contacts act on it) and its activation state; a
  body whose deactivation is disabled keeps activation state 4. `getWorldTransform` is
  a read of the body's `motionState`, which is `None` for a body without
  one.
- **Inputs in place of library calls.** The following are all inputs:
  - the clock delta;
  - `Math.random()` draws, as `rand: nat -> real`, with the walls taking
    successive draws;
  - the picking ray of `Raycaster.setFromCamera`;
  - the yaw rotation behind `translateX`/`translateZ`, as a `Turn` function.
- **Quarter turn.** The Z walls' rotation, `setFromAxisAngle` of the
  vertical axis and 90°, is the constant `ShapeFactory.QUARTER_TURN_Y`:
  (0, sin 45°, 0, cos 45°), with the sine and cosine as the double values
  a browser returns.
- **Material index.** `Math.floor(Math.random() * length)` is modelled with
  `.Floor`. `ShapeFactory.MaterialIndex` proves the index is in range for a
  draw in [0, 1). An out-of-range index yields THREE's default material,
  because `material[i]` is then `undefined`.
- **Walls.** `WallLayout.Grid` follows the two nested inclusive loops
  literally: a real accumulator stepped by 1.5 and by 3, compared with
  `<=`. The values involved are exact in binary floating point, so reals
  are faithful here. `WallLayout.GridIsSlots` proves the loops equal a
  closed form: `CourseCount(yCount)` courses of `PerCourse(start, stop)`
  bricks, with brick `m` of course `n` at `start + 3m` plus a 1.5 offset
  on shifted courses.
- **JavaScript details** that are modelled:
  - `a || b || c || 0` on the mouse movement fields. A field holding 0
    falls through like a missing one (`WASD.Movement`).
  - `isPhysicsEnabled && this.updatePhysics(...)`.
  - `Math.max(-PI_2, Math.min(PI_2, x))`.

### A held key survives capture loss

`setMove` returns early while the controls are disabled (app.ts:239), for
key releases exactly as for presses. So a movement flag set before pointer
capture was lost stays set. If the key is released while capture is off,
the rig moves again as soon as capture returns (app.ts:257), with no key
held. `WASD.HeldKeySurvivesCaptureLoss` proves this behaviour.

## Model

| member | source | states |
|---|---|---|
| Physics.NewWorld | app.ts:25-32 | the world starts with no bodies and gravity straight down |
| Physics.StepSimulation | app.ts:76 | a step keeps every body's mass and shape and whether it has a motion state; a body with one gets the integrator's pose; every body gets the integrator's velocity; a body with deactivation disabled stays so |
| Render.NewMesh | app.ts:130-132 | a new mesh sits at the given pose with no body and no shadows |
| Simulation.NewEngine | app.ts:16-32 | a new engine is empty, under gravity, and satisfies the engine invariant |
| Simulation.AddPhysicsObject | app.ts:61-69 | registration always appends one object, with its back-reference, and one body; the object joins the registry exactly when mass > 0, and its body then gets activation state 4; nothing present changes; the invariant is kept |
| Simulation.AddPreservesValid | app.ts:61-69 | appending a pair whose body has the registered mass keeps the engine invariant |
| Simulation.CopyPose | app.ts:81-90 | one loop pass keeps the scene's length and every back-reference |
| Simulation.SyncPoses | app.ts:78-92 | after the pose-copy loop, an object takes its body's pose iff it is registered and its body has a motion state; every other object is unchanged |
| Simulation.UpdatePhysics | app.ts:74-93 | the world is stepped with at most 10 substeps, then the registered objects with a motion state, and only those, take their body's new pose |
| Simulation.Update | app.ts:95-100 | physics steps only when enabled, a disabled frame changes nothing, the drawn scene is the scene after the step, and the measured delta is returned |
| Simulation.UpdatePreservesValid | app.ts:74-100 | a frame keeps the engine invariant |
| Simulation.StaticObjectsStayPut | app.ts:61-93 | an object whose body has mass <= 0 is never moved by a frame |
| Simulation.DynamicObjectsFollowBodies | app.ts:74-93 | after a physics frame, an object with positive mass and a motion state sits exactly at its body's new pose, and nothing else about it changes |
| WallLayout.CourseShape | app.ts:156-162 | the inner loop yields floor((stop - s)/3) + 1 bricks when s <= stop and none otherwise, brick m at s + 3m plus the offset |
| WallLayout.CourseInRange | app.ts:153 | the outer loop reaches height 1.5k iff k is below the course count |
| WallLayout.CoursesLength | app.ts:153-164 | the courses from course k on hold (count - k) times the per-course bricks |
| WallLayout.CoursesAt | app.ts:153-164 | brick m of course n sits at position (n - k) per-course + m of the courses from k on, in its closed-form slot, with the offset alternating per course |
| WallLayout.GridLength | app.ts:151-164 | a wall has course count times per-course bricks |
| WallLayout.GridAt | app.ts:151-164 | brick m of course n is created at position n per-course + m, at start + 3m (+1.5 on shifted courses) and height 1.5n |
| WallLayout.GridIsSlots | app.ts:151-180 | the accumulate-and-compare loops equal the closed-form grid |
| ShapeFactory.CreateRigidBody | app.ts:113-127 | the body takes the given mass and shape, a motion state at the mesh's pose, and zero velocity; it is registered with that same mass |
| ShapeFactory.CreateParalellepiped | app.ts:129-138 | one box mesh of size sx x sy x sz and one box body of half extents s * 0.5 and margin 0.05, both at the pose, registered as one pair with the given mass |
| ShapeFactory.CreateSphere | app.ts:140-149 | one 18 x 16 segment sphere mesh and one sphere body of the same radius and margin 0.05, both at the pose, registered as one pair |
| ShapeFactory.SetShadows | app.ts:160-161 | only the two shadow flags of that one mesh change |
| ShapeFactory.MaterialIndex | app.ts:158 | for a draw in [0, 1) and a non-empty list, the index is a valid position |
| ShapeFactory.PlaceBrick | app.ts:157-161 | one loop pass adds one 3 x 1.5 x 1.5 brick with both shadow flags on, and its body, at the given spot |
| ShapeFactory.PlaceBricks | app.ts:156-162 | a run of passes adds one brick per spot, in order, with the i-th draw's material; all of them join the registry iff mass > 0; nothing present changes |
| ShapeFactory.PlaceBricksStep | app.ts:156-162 | one brick then the rest compose into a run of bricks |
| ShapeFactory.BricksKeepValid | app.ts:156-162 | a run of bricks keeps the engine invariant |
| ShapeFactory.CreateWall_X_axis | app.ts:151-164 | one unrotated brick per closed-form slot, in grid order, brick i centred at (slot i + offset, base + 0.75, z); the brick count is courses times per-course bricks; the registry grows by exactly the new bricks iff mass > 0; the invariant is kept |
| ShapeFactory.CreateWall_Z_axis | app.ts:166-180 | the same grid with brick i centred at (x, base + 0.75, slot i + offset), every brick turned by `QUARTER_TURN_Y`; same count, registry growth and invariant as along X |
| ShapeFactory.QuarterTurnAboutY | app.ts:167-168 | the Z walls' rotation has axis part (0, y, 0) with y > 0, equal vector and scalar halves and unit norm, each to within 1e-15: a quarter turn about the vertical |
| Shooting.Shoot | app.ts:360-374 | a shot adds exactly one unrotated ball of the shooter's radius and mass at origin + direction, with both shadow flags on and velocity 80 x direction; nothing present changes |
| Shooting.SetVelocity | app.ts:370-373 | setting the velocity changes only that body's velocity and keeps the invariant |
| Shooting.LaunchSpeed | app.ts:371-373 | along a unit ray the launch speed is exactly 80 |
| Shooting.ShootAll | app.ts:360-374 | n shots add n objects and n bodies, remove or alter none, register the balls in shot order when mass > 0, and launch the i-th along the i-th ray |
| Shooting.ShotsStep | app.ts:360-374 | one shot and then the rest compose into a burst |
| Shooting.ShotsKeepValid | app.ts:360-374 | a burst of shots keeps the engine invariant |
| WASD.NewControls | app.ts:190-210 | the controls start disabled, with no flag set, velocity (1, 1, 1), no turn or tilt, at height 10 |
| WASD.KeyDirection | app.ts:240-253 | 87, 83, 65 and 68, and only those, steer forward, backward, left and right |
| WASD.SetMove | app.ts:238-254 | while enabled, exactly the key's own flag becomes `value`; disabled controls or other keys change nothing |
| WASD.Movement | app.ts:229-230 | the movement read is the first present non-zero field, else 0 |
| WASD.ClampPitch | app.ts:235 | the pitch lands in [-pi/2, pi/2], equal to the input when already inside and saturating otherwise |
| WASD.OnMouseMove | app.ts:226-236 | while enabled, yaw drops by 0.002 per pixel right and the clamped pitch by 0.002 per pixel down; nothing else changes; disabled controls change nothing |
| WASD.Impulse | app.ts:264-268 | a lone negative key pushes by -400 delta, a lone positive key by +400 delta, and both or neither cancel |
| WASD.Accelerate | app.ts:259-268 | every axis keeps the fraction 1 - 10 delta, then z takes the W/S impulse and x the A/D impulse; y is only damped |
| WASD.Update | app.ts:256-272 | while enabled the velocity follows `Accelerate` and the rig moves along its own x then z axis by velocity times delta; flags and angles are kept; disabled controls change nothing |
| WASD.DisabledIgnoresInput | app.ts:226-272 | while disabled, every key, mouse or frame input leaves the controls exactly as they were |
| WASD.OnlyMouseTurns | app.ts:226-272 | no key press or frame changes yaw or pitch |
| WASD.PitchStaysInRange | app.ts:226-236 | through any input sequence that starts in range, the pitch stays in [-pi/2, pi/2] |
| WASD.PitchSaturates | app.ts:233-235 | a large enough upward mouse movement pins the pitch at pi/2 |
| WASD.PressThenRelease | app.ts:238-254 | pressing and releasing a movement key while enabled leaves its direction unset |
| WASD.HeldKeySurvivesCaptureLoss | app.ts:238-254 | a key pressed while enabled and released while disabled stays set once capture returns |
| WASD.DampingShrinks | app.ts:259-262 | with no key held and 10 delta in [0, 1], each velocity component moves towards 0 without changing sign |
| WASD.ForwardStep | app.ts:259-265 | one frame with W alone multiplies the z velocity's distance from -40 by 1 - 10 delta |
| WASD.DecayIsPow | app.ts:259-262 | n rounds of damping by k multiply by k^n |
| WASD.ForwardDecay | app.ts:256-272 | after n frames with W alone, the z velocity's distance from -40 is (1 - 10 delta)^n times the initial one, so the speed tends to 40 |
| Arena.Ground | app.ts:424-428 | the ground is a static 100 x 1 x 100 slab at (0, -0.5, 0) casting and receiving shadows, object 0, outside the registry |
| Arena.WallDimensions | app.ts:450-453 | with yCount 15 there are 11 courses; -9..9 gives 7 bricks per course and -8.25..8.25 gives 6, so 77 and 66 bricks per wall |
| Arena.FirstWallCorners | app.ts:450 | the first wall's bricks start at (-9, 0), the shifted second course spans -7.5 to 10.5, and the last brick is at (9, 15) |
| Arena.XWallAdds | app.ts:450-451 | one X wall of the arena appends 77 objects and 77 bodies, registers every one of them in order, and keeps everything already there |
| Arena.ZWallAdds | app.ts:452-453 | one Z wall of the arena appends 66 registered objects and bodies likewise |
| Arena.ExtendsJoin | app.ts:449-453 | two registered runs built one after the other form a single registered run |
| Arena.XWallsAdd | app.ts:450-451 | the two X walls add 154 registered bricks |
| Arena.ZWallsAdd | app.ts:452-453 | the two Z walls add 132 registered bricks |
| Arena.WallsAdd | app.ts:450-453 | the four walls add 286 registered bricks in creation order |
| Arena.ArenaShape | app.ts:422-453 | the arena is the ground followed by 286 registered bricks |
| Arena.ArenaLayout | app.ts:422-453 | such an engine has 287 objects; object j + 1 is registry entry j, so the bricks and only the bricks are registered, in creation order; object 0 is still the static, shadowed 100 x 1 x 100 slab at (0, -0.5, 0) |
| Arena.ArenaValid | app.ts:422-453 | the arena satisfies the engine invariant, and the ground is outside the registry |
| Arena.Animate | app.ts:494-499 | a pass of the loop is the engine's frame with physics on exactly when the controls are enabled (the physics update then), followed by the controls' update by the delta the engine measured; a disabled pass changes nothing; the invariant is kept |
| Arena.OnPageEvent | app.ts:482-499 | a press on a link or while the pointer is free changes nothing; a press while captured adds exactly one ball; a frame is the engine's frame with physics on exactly when captured, followed by the controls' update by that delta, and changes nothing while the pointer is free; the invariant is kept |
| Arena.RunPage | app.ts:482-499 | any sequence of presses and frames keeps the engine invariant |
| Arena.FreePointerFreezes | app.ts:482-499 | while the pointer is free, no sequence of presses and frames changes the engine or the controls |
| Arena.EachPressFires | app.ts:482-491 | while captured, n presses off links add n objects |

## Left out

- `lockPointer` (app.ts:277-337) negotiates pointer lock and fullscreen with the browser and toggles UI. Its only effect on the core, setting `enabled`, is the `Capture` input of `WASD.Run`. A press while the pointer is free is modelled as changing nothing in the engine.
- `Engine.addObject`, `addLight`, `setCamera`, `getCamera`, `enableShadows` and `WASDControls.getObject`/`setPitchRotationX` are scene-graph and renderer setup with no logic. `engine.addObject(ground)` re-adds an object THREE already holds (it is moved, not duplicated), and the controls' rig object is not a physics object.
- The start pose of the controls set by the page (position (40, 25, 40), yaw 0.75, pitch -0.25), the lights, the camera, textures, Stats, resize handling and `requestAnimationFrame` belong to the page's setup.
- Ammo.js internals are not modelled: the integrator itself, `calculateLocalInertia` (no inertia field is kept) and the solver. THREE internals are not modelled either: rendering (the drawn frame is the scene), `Raycaster.setFromCamera` and `translateX/Z`, each an input or a function parameter, and `setFromAxisAngle`, whose one use is the constant `ShapeFactory.QUARTER_TURN_Y`.
- Simulation.AddPhysicsObject: what Bullet's `addRigidBody` does to the activation state of a static (mass 0) body is not promised; only the state 4 of a body with mass > 0 is.
- IEEE double rounding is not modelled: positions, velocities and angles are reals. `PI` is the double closest to pi.
- app.js is the compiled copy of app.ts and is not part of this model. definitions/detector.d.ts declares types only.
- WASD.Update: the rig's displacement is stated through the `Turn` parameter. That it is a rotation about the vertical axis, so height never changes, is not proved.
- Shooting.Shoot: the ray is an input. That it starts at the camera and points through the screen centre, with a unit direction, is not modelled; `Shooting.LaunchSpeed` assumes a unit direction.
- Arena.RunPage: it states only the engine invariant; per-event effects are stated by `Arena.OnPageEvent` and the lemmas after it.
