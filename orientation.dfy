/** The display-orientation arithmetic of `setCameraDisplayOrientation`:
    the screen's rotation code becomes degrees, and together with the camera's
    facing and the mounting angle of its sensor it gives the clockwise angle
    by which the preview must be turned so that it appears upright. */
module Orientation {
  import opened JavaInt

  // Screen-rotation codes, as the platform's display reports them.
  const ROTATION_0: int32 := 0
  const ROTATION_90: int32 := 1
  const ROTATION_180: int32 := 2
  const ROTATION_270: int32 := 3

  // Camera facing codes.
  const CAMERA_FACING_BACK: int32 := 0
  const CAMERA_FACING_FRONT: int32 := 1

  /** What the platform reports about the camera: which way it faces and the
      clockwise angle at which its sensor is mounted. */
  datatype CameraInfo = CameraInfo(facing: int32, orientation: int32)

  /** The `switch` on the rotation code; an unknown code leaves `degrees` at
      its initial 0. */
  function RotationDegrees(rotation: int32): (degrees: int32)
    ensures degrees == 0 || degrees == 90 || degrees == 180 || degrees == 270
    ensures ROTATION_0 <= rotation <= ROTATION_270 ==> degrees as int == 90 * rotation as int
    ensures !(ROTATION_0 <= rotation <= ROTATION_270) ==> degrees == 0
  {
    if rotation == ROTATION_0 then 0
    else if rotation == ROTATION_90 then 90
    else if rotation == ROTATION_180 then 180
    else if rotation == ROTATION_270 then 270
    else 0
  }

  /** The `result` that is handed to the camera, computed with Java's wrapping
      `int` operators and truncating `%`, operator by operator as written.
      A front-facing camera is mirrored; every other facing code is treated as
      back-facing. */
  function DisplayOrientation(rotation: int32, info: CameraInfo): (result: int32)
    ensures -360 < result as int < 360
    ensures info.facing == CAMERA_FACING_FRONT ==> 0 <= result as int < 360
  {
    var degrees := RotationDegrees(rotation) as int;
    if info.facing == CAMERA_FACING_FRONT then
      var r := Rem360(Wrap(info.orientation as int + degrees) as int) as int32;
      Rem360(Wrap(360 - r as int) as int) as int32
    else
      Rem360(Wrap(Wrap(info.orientation as int - degrees) as int + 360) as int) as int32
  }

  /** A sensor angle for which none of the Java operations above overflows;
      every physical mounting angle (0 up to 359) is one. */
  predicate NoWrap(orientation: int32) {
    0 <= orientation as int <= INT32_MAX - 360
  }

  /** The meaning of a display orientation `x`: turning the preview by `x`
      undoes the rotation of the device. For a back camera `x` plus the device
      rotation equals the sensor angle; for a front camera, whose image is
      mirrored, `x` plus the sensor angle plus the device rotation is a whole
      number of turns. Stated with Dafny's Euclidean `%`. */
  predicate Compensates(info: CameraInfo, degrees: int, x: int) {
    if info.facing == CAMERA_FACING_FRONT then (x + info.orientation as int + degrees) % 360 == 0
    else (x + degrees) % 360 == info.orientation as int % 360
  }

  /** The front-camera formula in mathematical terms. */
  lemma FrontFormula(rotation: int32, info: CameraInfo)
    requires info.facing == CAMERA_FACING_FRONT && NoWrap(info.orientation)
    ensures DisplayOrientation(rotation, info) as int
         == (360 - (info.orientation as int + RotationDegrees(rotation) as int) % 360) % 360
  {
    var degrees := RotationDegrees(rotation) as int;
    var sum := info.orientation as int + degrees;
    assert Wrap(sum) as int == sum;
    Rem360OfNonNegative(sum);
    var r := sum % 360;
    assert Wrap(360 - r) as int == 360 - r;
    Rem360OfNonNegative(360 - r);
  }

  /** The back-camera formula in mathematical terms; it applies to every
      facing code other than the front one. */
  lemma BackFormula(rotation: int32, info: CameraInfo)
    requires info.facing != CAMERA_FACING_FRONT && NoWrap(info.orientation)
    ensures DisplayOrientation(rotation, info) as int
         == (info.orientation as int - RotationDegrees(rotation) as int + 360) % 360
  {
    var degrees := RotationDegrees(rotation) as int;
    var diff := info.orientation as int - degrees;
    assert Wrap(diff) as int == diff;
    assert Wrap(diff + 360) as int == diff + 360;
    Rem360OfNonNegative(diff + 360);
  }

  /** For every sensor angle that does not overflow, the result is a proper
      angle in [0, 360) and it undoes the device rotation. */
  lemma DisplayOrientationCompensates(rotation: int32, info: CameraInfo)
    requires NoWrap(info.orientation)
    ensures 0 <= DisplayOrientation(rotation, info) as int < 360
    ensures Compensates(info, RotationDegrees(rotation) as int, DisplayOrientation(rotation, info) as int)
  {
    var o, d := info.orientation as int, RotationDegrees(rotation) as int;
    if info.facing == CAMERA_FACING_FRONT {
      FrontFormula(rotation, info);
      MirroredTurn(o + d);
    } else {
      BackFormula(rotation, info);
      OffsetTurn(o, d);
    }
  }

  // Modular facts behind the two formulas, on plain integers.
  lemma MirroredTurn(s: int)
    ensures ((360 - s % 360) % 360 + s) % 360 == 0
  {
    var r := s % 360;
    assert s == s / 360 * 360 + r;
    if r == 0 {
      assert (360 - r) % 360 == 0;
    } else {
      assert (360 - r) % 360 == 360 - r;
      assert 360 - r + s == (s / 360 + 1) * 360;
    }
  }

  lemma OffsetTurn(o: int, d: int)
    ensures ((o - d + 360) % 360 + d) % 360 == o % 360
  {
    var x := (o - d + 360) % 360;
    assert o - d + 360 == (o - d + 360) / 360 * 360 + x;
    assert x + d == o + (1 - (o - d + 360) / 360) * 360;
  }

  /** At most one angle in [0, 360) undoes a given device rotation. */
  lemma {:induction false} CompensationIsUnique(info: CameraInfo, degrees: int, x: int, y: int)
    requires 0 <= x < 360 && 0 <= y < 360
    requires Compensates(info, degrees, x) && Compensates(info, degrees, y)
    ensures x == y
  {
    var k := info.orientation as int + degrees;
    if info.facing == CAMERA_FACING_FRONT {
      assert (x + k) - (y + k) == ((x + k) / 360 - (y + k) / 360) * 360;
    } else {
      assert (x + degrees) - (y + degrees) == ((x + degrees) / 360 - (y + degrees) / 360) * 360;
    }
  }

  /** The display orientation is exactly the angle in [0, 360) that undoes
      the device rotation: the computed value does, and no other angle does. */
  lemma DisplayOrientationCharacterised(rotation: int32, info: CameraInfo, x: int)
    requires NoWrap(info.orientation) && 0 <= x < 360
    ensures x == DisplayOrientation(rotation, info) as int
        <==> Compensates(info, RotationDegrees(rotation) as int, x)
  {
    DisplayOrientationCompensates(rotation, info);
    if Compensates(info, RotationDegrees(rotation) as int, x) {
      CompensationIsUnique(info, RotationDegrees(rotation) as int, x, DisplayOrientation(rotation, info) as int);
    }
  }

  /** A sensor mounted at a multiple of 90 degrees gives a display orientation
      that is a multiple of 90 degrees, for either facing. */
  lemma QuarterTurns(rotation: int32, info: CameraInfo)
    requires NoWrap(info.orientation) && info.orientation as int % 90 == 0
    ensures DisplayOrientation(rotation, info) as int % 90 == 0
  {
    var x := DisplayOrientation(rotation, info) as int;
    DisplayOrientationCompensates(rotation, info);
    CompensatingAngleIsQuarter(x, info.orientation as int, RotationDegrees(rotation) as int,
                               info.facing == CAMERA_FACING_FRONT);
  }

  lemma CompensatingAngleIsQuarter(x: int, o: int, d: int, front: bool)
    requires o % 90 == 0 && d % 90 == 0
    requires front ==> (x + o + d) % 360 == 0
    requires !front ==> (x + d) % 360 == o % 360
    ensures x % 90 == 0
  {
    var a, b := o / 90, d / 90;
    assert o == 90 * a && d == 90 * b;
    if front {
      var k := (x + o + d) / 360;
      assert x + o + d == 360 * k;
      assert x == 90 * (4 * k - a - b);
    } else {
      var k := (x + d) / 360;
      var j := o / 360;
      assert x + d == 360 * k + o % 360;
      assert o == 360 * j + o % 360;
      assert x == 90 * (4 * k - 4 * j + a - b);
    }
  }

  /** The rotation code one quarter turn further counter-clockwise. */
  function NextRotation(rotation: int32): (next: int32)
    requires ROTATION_0 <= rotation <= ROTATION_270
    ensures ROTATION_0 <= next <= ROTATION_270
    ensures RotationDegrees(next) as int == (RotationDegrees(rotation) as int + 90) % 360
  {
    if rotation == ROTATION_270 then ROTATION_0 else rotation + 1
  }

  /** Turning the device by one more quarter turn turns the preview back by
      one quarter turn, whichever way the camera faces. */
  lemma DeviceQuarterTurn(rotation: int32, info: CameraInfo)
    requires ROTATION_0 <= rotation <= ROTATION_270 && NoWrap(info.orientation)
    ensures DisplayOrientation(NextRotation(rotation), info) as int
         == (DisplayOrientation(rotation, info) as int + 270) % 360
  {
    var next := NextRotation(rotation);
    DisplayOrientationCompensates(rotation, info);
    DisplayOrientationCompensates(next, info);
    CompensationAfterQuarterTurn(info, RotationDegrees(rotation) as int, RotationDegrees(next) as int,
                                 DisplayOrientation(rotation, info) as int, DisplayOrientation(next, info) as int);
  }

  /** If `x` undoes a device rotation of `d` degrees and `z` undoes one of
      `d'`, a quarter turn further, then `z` is `x` turned back a quarter. */
  lemma CompensationAfterQuarterTurn(info: CameraInfo, d: int, d': int, x: int, z: int)
    requires 0 <= x < 360 && 0 <= z < 360 && d' == (d + 90) % 360
    requires Compensates(info, d, x) && Compensates(info, d', z)
    ensures z == (x + 270) % 360
  {
    var y := (x + 270) % 360;
    if info.facing == CAMERA_FACING_FRONT {
      QuarterShift(x, d, info.orientation as int);
      assert (y + info.orientation as int + d') % 360 == 0;
    } else {
      QuarterShift(x, d, 0);
      assert (y + d') % 360 == info.orientation as int % 360;
    }
    CompensationIsUnique(info, d', y, z);
  }

  // Adding 270 to one angle and 90 to the other leaves their sum unchanged modulo 360.
  lemma QuarterShift(x: int, d: int, c: int)
    ensures ((x + 270) % 360 + (d + 90) % 360 + c) % 360 == (x + d + c) % 360
  {
    var q1, q2 := (x + 270) / 360, (d + 90) / 360;
    var s := (x + 270) % 360 + (d + 90) % 360 + c;
    assert s == x + d + c + (1 - q1 - q2) * 360;
    var k := 1 - q1 - q2;
    var t := x + d + c;
    assert t == t / 360 * 360 + t % 360;
    assert s == (t / 360 + k) * 360 + t % 360;
  }

  /** An unknown rotation code is handled exactly like ROTATION_0. */
  lemma UnknownRotationIsUpright(rotation: int32, info: CameraInfo)
    requires !(ROTATION_0 <= rotation <= ROTATION_270)
    ensures DisplayOrientation(rotation, info) == DisplayOrientation(ROTATION_0, info)
  {
  }

  /** A sensor mounted at 90 degrees with the device upright: the front camera
      is turned by 270 degrees and the back camera by 90 degrees. */
  lemma Sensor90Upright()
    ensures DisplayOrientation(ROTATION_0, CameraInfo(CAMERA_FACING_FRONT, 90)) == 270
    ensures DisplayOrientation(ROTATION_0, CameraInfo(CAMERA_FACING_BACK, 90)) == 90
  {
    FrontFormula(ROTATION_0, CameraInfo(CAMERA_FACING_FRONT, 90));
    BackFormula(ROTATION_0, CameraInfo(CAMERA_FACING_BACK, 90));
  }
}
