/** Input-to-motion arithmetic of the player controller: the per-face direction
    table, the quadrant correction, the force a move input applies and the
    facing a rotate input sets. Inputs and results are exact reals. */
module Control {
  import opened Geometry
  import opened Wrappers

  /** Number of cube faces, and so the size of each direction table. */
  const AreaCount: nat := 6

  /** The default of the inspector-editable `playerMoveSpeed` field. */
  const DefaultMoveSpeed: real := 0.01

  /** Fixed offset that aligns the joystick angle with the cube object. */
  const AlignmentDegrees: real := 90.0

  /** The cube face the player stands on. Only YP (+Y) and ZM (-Z) are used by
      the controller; the other four stand for the remaining faces. */
  datatype CubeArea = XP | XM | YP | YM | ZP | ZM

  /** The integer value of a face, used to index the direction tables. */
  function AreaIndex(a: CubeArea): (i: nat)
    ensures i < AreaCount
  {
    match a
    case XP => 0
    case XM => 1
    case YP => 2
    case YM => 3
    case ZP => 4
    case ZM => 5
  }

  /** Distinct faces use distinct slots, so writing one slot leaves the other faces alone. */
  lemma AreaIndexInjective(a: CubeArea, b: CubeArea)
    ensures AreaIndex(a) == AreaIndex(b) <==> a == b
  {
  }

  /** The two per-face tables: the local forward and right axis on each face. */
  datatype DirectionTable = DirectionTable(forward: seq<Vec3>, right: seq<Vec3>)

  /** Both tables start as six zero vectors; only the YP and ZM slots are filled. */
  function SetDirectionVectors(): (t: DirectionTable)
    ensures |t.forward| == AreaCount && |t.right| == AreaCount
    ensures t.forward[AreaIndex(YP)] == Forward && t.right[AreaIndex(YP)] == Right
    ensures t.forward[AreaIndex(ZM)] == Up && t.right[AreaIndex(ZM)] == Right
    ensures forall a: CubeArea :: a != YP && a != ZM ==>
              t.forward[AreaIndex(a)] == Zero && t.right[AreaIndex(a)] == Zero
  {
    var blank := seq(AreaCount, _ => Zero);
    DirectionTable(
      blank[AreaIndex(YP) := Forward][AreaIndex(ZM) := Up],
      blank[AreaIndex(YP) := Right][AreaIndex(ZM) := Right])
  }

  /** True when the face has a populated slot in the direction tables. */
  predicate Populated(a: CubeArea) {
    a == YP || a == ZM
  }

  /** The quadrant correction added to the arctangent: -180 for inputs left of
      the vertical axis and off the horizontal axis, 0 for everything else,
      including inputs on either axis. */
  function AddQuadrantValue(x: real, y: real): (r: real)
    ensures r == 0.0 || r == -180.0
    ensures r == -180.0 <==> x < 0.0 && y != 0.0
    ensures x == 0.0 || y == 0.0 ==> r == 0.0
  {
    if x > 0.0 && y > 0.0 then 0.0
    else if x < 0.0 && y > 0.0 then -180.0
    else if x < 0.0 && y < 0.0 then -180.0
    else if x > 0.0 && y < 0.0 then 0.0
    else 0.0
  }

  /** The force for already-scaled inputs: `right * hs + forward * vs`,
      read from the direction tables at the face's slot. */
  function FaceForce(area: CubeArea, hs: real, vs: real): (f: Vec3)
    ensures area == YP ==> f == Vec3(hs, 0.0, vs)
    ensures area == ZM ==> f == Vec3(hs, vs, 0.0)
    ensures !Populated(area) ==> f == Zero
  {
    var table := SetDirectionVectors();
    var i := AreaIndex(area);
    var moveVector := Add(Zero, Scale(table.right[i], hs));
    Add(moveVector, Scale(table.forward[i], vs))
  }

  /** The force one move input applies to the rigid body: None when both inputs
      are zero and the call returns before AddForce, otherwise the force passed
      to AddForce, `right * h * speed + forward * v * speed` for the current face. */
  function MovePlayerObject(area: CubeArea, speed: real, h: real, v: real): (f: Option<Vec3>)
    ensures f.None? <==> h == 0.0 && v == 0.0
    ensures f.Some? && area == YP ==> f.value == Vec3(h * speed, 0.0, v * speed)
    ensures f.Some? && area == ZM ==> f.value == Vec3(h * speed, v * speed, 0.0)
    ensures f.Some? && !Populated(area) ==> f.value == Zero
  {
    if h == 0.0 && v == 0.0 then None
    else
      var horizontalSpeed := h * speed;
      var verticalSpeed := v * speed;
      Some(FaceForce(area, horizontalSpeed, verticalSpeed))
  }

  /** At the default speed a full diagonal push on the top face gives a
      force of 0.01 along +X and along +Z. */
  lemma DefaultSpeedOnTopFace()
    ensures MovePlayerObject(YP, DefaultMoveSpeed, 1.0, 1.0) == Some(Vec3(0.01, 0.0, 0.01))
  {
  }

  /** Negating one factor negates the product; kept apart so that the move
      lemma below needs no non-linear reasoning of its own. */
  lemma NegatedProduct(a: real, b: real)
    ensures (-a) * b == -(a * b)
  {
  }

  /** Reversing both inputs reverses the applied force, on every face. */
  lemma MoveIsOddInInput(area: CubeArea, speed: real, h: real, v: real)
    requires h != 0.0 || v != 0.0
    ensures MovePlayerObject(area, speed, -h, -v) == Some(Negate(MovePlayerObject(area, speed, h, v).value))
  {
    var hs, vs := h * speed, v * speed;
    NegatedProduct(h, speed);
    NegatedProduct(v, speed);
    var f := FaceForce(area, hs, vs);
    var g := FaceForce(area, -hs, -vs);
    assert g == Negate(f) by {
      if area == YP {
      } else if area == ZM {
      } else {
        assert !Populated(area);
      }
    }
  }

  /** The joystick angle before it becomes a rotation: the arctangent of
      `v / h` in degrees (left at zero when `h` is zero), plus the quadrant
      correction, minus the 90 degree alignment. `atan` is the engine's
      arctangent in radians and `degreesPerRadian` its `180 / PI` factor. */
  function RotateAngle(h: real, v: real, atan: real -> real, degreesPerRadian: real): (a: real)
    ensures h == 0.0 ==> a == -AlignmentDegrees
    ensures h > 0.0 || (h < 0.0 && v == 0.0) ==>
              a == atan(v / h) * degreesPerRadian - AlignmentDegrees
    ensures h < 0.0 && v != 0.0 ==>
              a == atan(v / h) * degreesPerRadian - 180.0 - AlignmentDegrees
  {
    var raw := if h != 0.0 then atan(v / h) else 0.0;
    var degrees := raw * degreesPerRadian;
    degrees + AddQuadrantValue(h, v) - AlignmentDegrees
  }

  /** What the controller captured from the player object at start-up: its up
      vector, the axis of every turn, and its local rotation, the base of every turn. */
  datatype Rig = Rig(up: Vec3, origin: Rotation)

  /** The rotation after one rotate input: unchanged when both inputs are zero,
      otherwise a turn of minus the joystick angle about the captured up vector,
      applied after the captured origin rotation. */
  function RotatePlayerObject(rig: Rig, current: Rotation, h: real, v: real,
                              atan: real -> real, degreesPerRadian: real): (r: Rotation)
    ensures h == 0.0 && v == 0.0 ==> r == current
    ensures h != 0.0 || v != 0.0 ==> r.AboutAxis? && r.axis == rig.up && r.base == rig.origin
    ensures h != 0.0 || v != 0.0 ==> r.degrees == -RotateAngle(h, v, atan, degreesPerRadian)
    ensures h == 0.0 && v != 0.0 ==> r == AboutAxis(AlignmentDegrees, rig.up, rig.origin)
  {
    if h == 0.0 && v == 0.0 then current
    else AboutAxis(-RotateAngle(h, v, atan, degreesPerRadian), rig.up, rig.origin)
  }

  /** The facing is absolute: for a non-zero input it does not depend on the
      rotation the player had before, and applying the same input twice is
      the same as applying it once. */
  lemma RotationIgnoresPrevious(rig: Rig, c1: Rotation, c2: Rotation, h: real, v: real,
                                atan: real -> real, degreesPerRadian: real)
    requires h != 0.0 || v != 0.0
    ensures RotatePlayerObject(rig, c1, h, v, atan, degreesPerRadian)
         == RotatePlayerObject(rig, c2, h, v, atan, degreesPerRadian)
    ensures var once := RotatePlayerObject(rig, c1, h, v, atan, degreesPerRadian);
            RotatePlayerObject(rig, once, h, v, atan, degreesPerRadian) == once
  {
  }

  /** The diagonal (1, 1): with an arctangent of 45 degrees at 1, the angle is -45. */
  lemma DiagonalAngle(atan: real -> real, degreesPerRadian: real)
    requires atan(1.0) * degreesPerRadian == 45.0
    ensures RotateAngle(1.0, 1.0, atan, degreesPerRadian) == -45.0
  {
  }

  /** Off both axes, the quadrant correction separates opposite inputs: (h, v)
      and (-h, -v) share the arctangent term and their angles are exactly
      180 degrees apart. */
  lemma OppositeInputsHalfTurnApart(h: real, v: real, atan: real -> real, degreesPerRadian: real)
    requires h != 0.0 && v != 0.0
    ensures var d := RotateAngle(h, v, atan, degreesPerRadian) - RotateAngle(-h, -v, atan, degreesPerRadian);
            d == 180.0 || d == -180.0
  {
    assert (-v) / (-h) == v / h;
  }

  /** On the axes the correction does not separate anything: with an
      arctangent of zero at zero, pushing right, left, up or down all give the
      same angle, -90. */
  lemma AxisInputsShareAngle(k: real, atan: real -> real, degreesPerRadian: real)
    requires k != 0.0
    requires atan(0.0) == 0.0
    ensures RotateAngle(k, 0.0, atan, degreesPerRadian) == -AlignmentDegrees
    ensures RotateAngle(-k, 0.0, atan, degreesPerRadian) == -AlignmentDegrees
    ensures RotateAngle(0.0, k, atan, degreesPerRadian) == -AlignmentDegrees
    ensures RotateAngle(0.0, -k, atan, degreesPerRadian) == -AlignmentDegrees
  {
    assert 0.0 / k == 0.0 && 0.0 / (-k) == 0.0;
  }
}
