# Player controller kernel

A Dafny model of the engine-independent logic of the game-jam player
controller (`Player`, a Unity behaviour script): the pick-up / throw
interaction state machine, the decision taken on a forward raycast, the
per-cube-face direction tables, the force one move input applies, and the
angle one rotate input turns the player to. Engine calls become inputs and
outputs: the raycast result is an argument, the force passed to
`Rigidbody.AddForce` and the rotation written to the transform are results,
and the parenting of a picked object is recorded in the world.

Modules:

- `Wrappers` (wrappers.dfy): `Option` for null references, `Result` for the
  calls that can throw.
- `Geometry` (geometry.dfy): real three-vectors with the engine's unit axes,
  and symbolic rotations (`AboutAxis(d, axis, base)` is
  `Quaternion.AngleAxis(d, axis) * base`).
- `Scene` (scene.dfy): the `CGObject` component as seen by the controller
  (movable flag and object state, pickable exactly when the state is GROUND),
  the set of objects parented under the player, and the one fault a
  component query can raise.
- `Control` (control.dfy): cube faces, direction tables, quadrant correction,
  move force, rotation angle and rotation.
- `Player` (player.dfy): the player state enum, the player record
  `{state, held}`, start-up, the raycast decision, pick-up, throw, finished throw.
- `Interaction` (interaction.dfy): sequences of calls (pick-up, throw,
  finished throw, and writes through the public `PlayerState` setter) and
  the invariants every such run keeps.

Behaviour the proofs bring out:

- The held-object reference is never cleared. After pick, throw and finish
  the player is IDLE but still holds the object, and the object stays PICKED
  and parented under the player. A second pick-up then replaces the reference
  and leaves the first object attached with nothing referring to it
  (`Interaction.PickThrowFinishCycle`, `Interaction.SecondPickOrphansFirst`).
- The quadrant correction gives -180 for both left-hand quadrants. This is
  what the arctangent needs off the axes: opposite inputs end up exactly 180
  degrees apart (`Control.OppositeInputsHalfTurnApart`). On the axes nothing
  separates them. With an arctangent of zero at zero, pushing right, left, up
  or down all give the same angle, -90 (`Control.AxisInputsShareAngle`).
- The raycast decision stores the hit in a field, and it throws when the hit
  object has no `CGObject` component. A pick-up from IDLE throws in the same
  way. The model returns `Failure(MissingCGObject)` for both, with nothing
  changed among the things the model tracks.
- A picked-up object is no longer GROUND, so the raycast no longer finds it
  (`Player.PickedObjectNoLongerFound`).

## Model

| member | source | states |
|---|---|---|
| Control.AreaIndex | CG_GAME_JAM_01/Assets/Code/Game/Player.cs:30-32 | every cube face has its own slot below the table size of six |
| Control.AreaIndexInjective | CG_GAME_JAM_01/Assets/Code/Game/Player.cs:75-79 | two faces share a slot only if they are the same face, so filling YP and ZM touches no other face |
| Control.SetDirectionVectors | CG_GAME_JAM_01/Assets/Code/Game/Player.cs:70-80 | both tables have six slots; YP has forward +Z and right +X, ZM has forward +Y and right +X, and every other face has the zero vector in both tables |
| Control.AddQuadrantValue | CG_GAME_JAM_01/Assets/Code/Game/Player.cs:96-118 | the result is always 0 or -180; it is -180 exactly when x < 0 and y != 0, and 0 whenever x or y is zero |
| Control.FaceForce | CG_GAME_JAM_01/Assets/Code/Game/Player.cs:130-133 | the sum of the face's right axis times the horizontal speed and its forward axis times the vertical speed is (hs, 0, vs) on YP, (hs, vs, 0) on ZM and zero on the other four faces |
| Control.MovePlayerObject | CG_GAME_JAM_01/Assets/Code/Game/Player.cs:123-136 | no force is applied exactly when both inputs are zero; otherwise the force is (h*speed, 0, v*speed) on YP, (h*speed, v*speed, 0) on ZM and the zero vector on the four unpopulated faces |
| Control.DefaultSpeedOnTopFace | CG_GAME_JAM_01/Assets/Code/Game/Player.cs:28 | at the default move speed of 0.01, input (1, 1) on face YP gives the force (0.01, 0, 0.01) |
| Control.MoveIsOddInInput | CG_GAME_JAM_01/Assets/Code/Game/Player.cs:128-135 | reversing both inputs reverses the applied force on every face |
| Control.RotateAngle | CG_GAME_JAM_01/Assets/Code/Game/Player.cs:143-157 | with zero horizontal input the angle is exactly -90; otherwise it is the arctangent of v/h in degrees minus 90, less a further 180 exactly when h < 0 and v != 0 |
| Control.RotatePlayerObject | CG_GAME_JAM_01/Assets/Code/Game/Player.cs:138-160 | both inputs zero leaves the rotation unchanged; otherwise the new rotation turns by minus the angle about the captured up vector, on top of the captured origin rotation; zero horizontal with non-zero vertical input turns by exactly +90 |
| Control.RotationIgnoresPrevious | CG_GAME_JAM_01/Assets/Code/Game/Player.cs:160 | for a non-zero input the result does not depend on the previous rotation, and repeating the input does not turn any further |
| Control.DiagonalAngle | CG_GAME_JAM_01/Assets/Code/Game/Player.cs:146-157 | input (1, 1) gives angle -45 when the arctangent of 1 is 45 degrees |
| Control.OppositeInputsHalfTurnApart | CG_GAME_JAM_01/Assets/Code/Game/Player.cs:146-157 | off both axes, inputs (h, v) and (-h, -v) give angles exactly 180 degrees apart |
| Control.AxisInputsShareAngle | CG_GAME_JAM_01/Assets/Code/Game/Player.cs:146-157 | when atan(0) is 0, the inputs (k, 0), (-k, 0), (0, k) and (0, -k) all give angle -90 |
| Player.InitializePlayer | CG_GAME_JAM_01/Assets/Code/Game/Player.cs:58-68 | start-up captures the up vector and local rotation as the axis and base of later turns, sets the state to IDLE and leaves the held object alone |
| Player.StartedPlayerCanPick | CG_GAME_JAM_01/Assets/Code/Game/Player.cs:67 | right after start-up a pick-up of any object with a CGObject component succeeds |
| Player.ShotRayCastToForward | CG_GAME_JAM_01/Assets/Code/Game/Player.cs:166-192 | the result is true exactly when there is a hit that is movable and pickable (its state is GROUND), and then carries that object; a miss, an object that is not movable or not pickable gives false with no object; a hit without a CGObject component throws |
| Player.ImmovableNeverFound | CG_GAME_JAM_01/Assets/Code/Game/Player.cs:172-177 | an object that is not movable is never found, whatever its object state |
| Player.PickUpObject | CG_GAME_JAM_01/Assets/Code/Game/Player.cs:194-211 | success exactly from IDLE on an object with a CGObject component. Then: state PICK, target held, target PICKED with its movable flag kept, target parented under the player, no other object changed. From any other state: false and nothing changes, for any target. From IDLE on an object without the component: throws before writing anything |
| Player.PickedObjectNoLongerFound | CG_GAME_JAM_01/Assets/Code/Game/Player.cs:179-184 | after a pick-up from IDLE the object is PICKED, so the forward raycast reports it as not found |
| Player.BusyPlayerRefusesPick | CG_GAME_JAM_01/Assets/Code/Game/Player.cs:196-199 | in PICK or THROW a pick-up returns false and leaves the player and the world as they were, even for an object without a CGObject component |
| Player.ThrowObject | CG_GAME_JAM_01/Assets/Code/Game/Player.cs:213-220 | from any state the player goes to THROW and keeps its held object |
| Player.ThrowStrengthUnused | CG_GAME_JAM_01/Assets/Code/Game/Player.cs:213-220 | the throw strength has no effect on the result |
| Player.FinishThrowObject | CG_GAME_JAM_01/Assets/Code/Game/Player.cs:222-225 | from any state the player goes to IDLE and keeps its held object, which is never cleared |
| Interaction.Step | CG_GAME_JAM_01/Assets/Code/Game/Player.cs:18-225 | one call keeps the set of objects, only a pick-up can change the world, a pick-up that throws changes nothing, and a setter write stores the given state and keeps the held object |
| Interaction.Run | CG_GAME_JAM_01/Assets/Code/Game/Player.cs:194-225 | any sequence of interaction calls keeps the set of objects that carry a CGObject component |
| Interaction.StepKeepsHolding | CG_GAME_JAM_01/Assets/Code/Game/Player.cs:202-208 | each call keeps the held object marked PICKED and parented under the player |
| Interaction.RunKeepsHolding | CG_GAME_JAM_01/Assets/Code/Game/Player.cs:194-225 | any run keeps the held object marked PICKED and parented under the player, since no call unmarks or detaches anything |
| Interaction.RunStaysStarted | CG_GAME_JAM_01/Assets/Code/Game/Player.cs:18-225 | once past start-up, only a setter write of NONE brings the player back to NONE; a run without one ends in a started state |
| Interaction.SetterStopsPlayer | CG_GAME_JAM_01/Assets/Code/Game/Player.cs:18-22 | one setter write of NONE stops a started player and keeps its held object |
| Interaction.UntargetedUnchanged | CG_GAME_JAM_01/Assets/Code/Game/Player.cs:200-210 | an object that no pick-up in the run targets keeps its component data and its parenting |
| Interaction.PickThrowFinishCycle | CG_GAME_JAM_01/Assets/Code/Game/Player.cs:202-225 | IDLE, pick-up, throw, finish ends IDLE with the object still held, still PICKED and still parented under the player, and nothing else changed |
| Interaction.SecondPickOrphansFirst | CG_GAME_JAM_01/Assets/Code/Game/Player.cs:194-225 | after that cycle a second pick-up succeeds and holds the new object, and the first one stays PICKED and attached |

## Left out

- Engine calls are not modelled. `Rigidbody.AddForce`, `Physics.Raycast`,
  transform reparenting and rotation, `Quaternion.AngleAxis` and
  `Debug.DrawRay` appear only as their arguments or results. The raycast
  itself is an input, the hit object or none.
- `UpdatePlayer` and `DebugDrawRay` are not modelled. They compute the ray
  origin from the capsule height and draw a diagnostic ray. The maximum ray
  distance of 0.3 only parameterises the engine query.
- `Mathf.Atan` and `Mathf.PI` are not modelled. The arctangent is a
  parameter `atan: real -> real`, and `180 / PI` is a parameter
  `degreesPerRadian`, so no trigonometric fact is assumed.
- Floating-point rounding is not modelled. Inputs, speeds, angles and vectors
  are exact reals.
- `ThrowObject`'s throw vector is not modelled. It is computed and never
  used, and the file's closing comment marks the normalisation and frame-time
  scaling as still to do.
- Start-up's capture of the capsule height is not modelled. Only the ray
  origin uses the height, and the ray origin is left out.
- `Start` and `Update` are engine plumbing and are not modelled. Calls made
  before start-up, when the direction tables are not yet allocated and a
  non-zero move would throw, are out of scope.
- `GameManager` and `WorldSetter` are not part of this model. The current
  face is an argument. Only the names YP and ZM come from the code. The other
  four face names and the slot order are placeholders, and every property is
  stated per face, not per slot.
- `CGObject` is not part of this model. `IsMovable` is a flag, and
  `IsPickable` is taken to be "the object state is GROUND", as the comment
  before the second check says. The object state shows only GROUND and
  PICKED, the two values the controller mentions.
- Player.ShotRayCastToForward: the model does not keep the hit stored in the
  controller's raycast-hit field, which nothing else reads.
- Control.RotatePlayerObject: the origin is read from the local rotation and
  the result is written to the world rotation. The model does not distinguish
  the two frames, which differ only when the player has a parent.
- Interaction.Step: a pick-up that throws also unwinds whatever engine code
  called it. The model only records that the controller is left unchanged,
  and the run goes on with the next call.
