# CamTest8 camera activity, modelled in Dafny

CamTest8 is a small Android camera application. Its main activity opens the
device camera when the preview surface is created. It asks for a 960x720
preview with macro focus, steady-photo scene mode and fluorescent white
balance, binds the surface and starts the preview. When the surface changes,
it turns the preview to match the screen rotation and restarts it. When the
surface is destroyed, it stops the preview and releases the camera. This
project models the two pieces of logic in that activity:

- `orientation.dfy` (module `Orientation`), on top of `java_int.dfy`
  (module `JavaInt`): the arithmetic of `setCameraDisplayOrientation`. It is
  written as pure functions over Java's 32-bit `int`, with explicit
  two's-complement wrap-around and Java's truncating `%`. The lemmas show
  what the result means: it is the one angle in [0, 360) that undoes the
  device rotation, mirrored for a front camera (`Compensates`,
  `DisplayOrientationCharacterised`). From that follow the closed formulas,
  the range, multiples of 90, the effect of one more quarter turn of the
  device, and the example of a sensor mounted at 90 degrees with the device
  upright.
- `lifecycle.dfy` (module `Lifecycle`): the camera handle across the three
  surface callbacks. The class `MainActivity` holds the nullable handle
  `camera` (an `Option`), a `previewing` flag, and `calls`, the platform calls
  made so far that returned normally. `Valid()` ties the handle and the flag
  to `Replay(calls)`, which replays those calls. It also requires that an
  open camera has been asked for the 960x720 preview size. Each callback
  states exactly which calls it makes, in which order, and what the handle
  and the flag become. The source dereferences `mCamera` without a check in
  `surfaceChanged` (line 113, through line 178) and in `surfaceDestroyed`
  (line 141). Those methods therefore require a handle.

Platform inputs are parameters: the screen rotation code, the camera's
facing and sensor angle, what `Camera.open()` gives (an exception, null, or a
handle), the parameters the new camera reports, and whether each guarded
platform call returns normally.

A few facts about the code shape the model:

- A null result from `Camera.open()` (a device without a back-facing camera)
  is stored at line 60 and dereferenced by `getParameters` at line 67 outside
  any `try`. `SurfaceCreated` therefore excludes it (see Findings).
- A throwing `stopPreview` in `surfaceChanged` (lines 119-123) is swallowed
  without a log line.
- Line 81 only requests a 960x720 preview; the code never reads back which
  size the device chose.

## Model

| member | source | states |
|---|---|---|
| JavaInt.Wrap | app/src/main/java/edu/doane/ist/camtest8/MainActivity.java:173-176 | Java `int` addition and subtraction: the stored value equals the true one when that fits in 32 bits, and is congruent to it modulo 2^32 otherwise |
| JavaInt.Rem360 | app/src/main/java/edu/doane/ist/camtest8/MainActivity.java:173-176 | Java's `x % 360`: congruent to `x` modulo 360, smaller than 360 in magnitude, and with the sign of the dividend (truncation, not Euclidean division) |
| JavaInt.Rem360OfNonNegative | app/src/main/java/edu/doane/ist/camtest8/MainActivity.java:173-176 | on a non-negative dividend, Java's remainder equals Dafny's Euclidean one |
| Orientation.RotationDegrees | app/src/main/java/edu/doane/ist/camtest8/MainActivity.java:162-169 | rotation codes 0, 1, 2, 3 give 0, 90, 180, 270 degrees; any other code leaves degrees at 0 |
| Orientation.DisplayOrientation | app/src/main/java/edu/doane/ist/camtest8/MainActivity.java:171-177 | the result lies strictly between -360 and 360 for every input; for a front camera it lies in [0, 360) even when the sum wraps |
| Orientation.FrontFormula | app/src/main/java/edu/doane/ist/camtest8/MainActivity.java:172-174 | for a sensor angle that cannot overflow (0 to 2^31 - 361), a front camera gets `(360 - (orientation + degrees) % 360) % 360` |
| Orientation.BackFormula | app/src/main/java/edu/doane/ist/camtest8/MainActivity.java:175-176 | for a sensor angle that cannot overflow (0 to 2^31 - 361), every facing code other than front is treated as back, with result `(orientation - degrees + 360) % 360` |
| Orientation.DisplayOrientationCompensates | app/src/main/java/edu/doane/ist/camtest8/MainActivity.java:164-177 | for a sensor angle that does not overflow, the result is in [0, 360). For a back camera, result plus device rotation equals the sensor angle modulo 360. For a front camera, result plus sensor angle plus device rotation is a whole number of turns |
| Orientation.CompensationIsUnique | app/src/main/java/edu/doane/ist/camtest8/MainActivity.java:171-177 | at most one angle in [0, 360) undoes a given device rotation |
| Orientation.DisplayOrientationCharacterised | app/src/main/java/edu/doane/ist/camtest8/MainActivity.java:153-179 | an angle in [0, 360) equals the computed orientation if and only if it undoes the device rotation |
| Orientation.QuarterTurns | app/src/main/java/edu/doane/ist/camtest8/MainActivity.java:165-176 | a sensor angle that is a multiple of 90 gives a result that is a multiple of 90, for either facing |
| Orientation.DeviceQuarterTurn | app/src/main/java/edu/doane/ist/camtest8/MainActivity.java:164-177 | turning the device one quarter turn further (ROTATION_270 wraps to ROTATION_0) turns the result back by 90 degrees modulo 360, for either facing |
| Orientation.UnknownRotationIsUpright | app/src/main/java/edu/doane/ist/camtest8/MainActivity.java:162-169 | an unknown rotation code gives the same result as ROTATION_0 |
| Orientation.Sensor90Upright | app/src/main/java/edu/doane/ist/camtest8/MainActivity.java:172-176 | sensor at 90 degrees and ROTATION_0: front camera 270, back camera 90 |
| Lifecycle.Configure | app/src/main/java/edu/doane/ist/camtest8/MainActivity.java:81-88 | the parameters pushed to the camera request preview size 960x720, macro focus, steady-photo scene and fluorescent white balance, and keep every other entry the device reported |
| Lifecycle.PreviewCalls | app/src/main/java/edu/doane/ist/camtest8/MainActivity.java:91-97 | `setPreviewDisplay` is recorded exactly when binding succeeds, and `startPreview` exactly when binding and starting both succeed, right after it; when starting throws after a successful bind, the trace is `setPreviewDisplay` alone |
| Lifecycle.Replay | app/src/main/java/edu/doane/ist/camtest8/MainActivity.java:57-144 | for any sequence of platform calls that returned normally, a preview streams only while a camera is open, and with no camera open nothing remains of an earlier session |
| Lifecycle.ReleaseEndsSession | app/src/main/java/edu/doane/ist/camtest8/MainActivity.java:142-143 | after any history, a release that returns normally leaves no handle and no running preview |
| Lifecycle.MainActivity.constructor | app/src/main/java/edu/doane/ist/camtest8/MainActivity.java:28-29 | the camera reference starts null, with no preview and no calls made |
| Lifecycle.MainActivity.SurfaceCreated | app/src/main/java/edu/doane/ist/camtest8/MainActivity.java:57-98 | requires that opening did not return null (unguarded use at line 67). A throwing open returns before anything changes. Otherwise the new handle becomes the camera and the configured parameters are set before the surface is bound and the preview started. The preview runs exactly when binding and starting both succeed |
| Lifecycle.MainActivity.SurfaceCreatedGuarded | app/src/main/java/edu/doane/ist/camtest8/MainActivity.java:57-98 | corrected `surfaceCreated`: a null result from opening is handled like a throwing open and changes nothing; an opened camera is handled as by `SurfaceCreated` |
| Lifecycle.MainActivity.OpenAndConfigure | app/src/main/java/edu/doane/ist/camtest8/MainActivity.java:59-88 | an opened camera becomes the activity's camera and receives the configured parameters, with no preview running yet |
| Lifecycle.MainActivity.BindAndStart | app/src/main/java/edu/doane/ist/camtest8/MainActivity.java:91-97 | binding then starting; if a call throws, the rest of the block is skipped. The preview runs afterwards if both calls succeeded or it was already running |
| Lifecycle.MainActivity.TryStopPreview | app/src/main/java/edu/doane/ist/camtest8/MainActivity.java:119-123 | a stop that returns normally stops the preview; a throwing stop is swallowed and changes nothing |
| Lifecycle.MainActivity.SetCameraDisplayOrientation | app/src/main/java/edu/doane/ist/camtest8/MainActivity.java:153-179 | requires a handle (unguarded use of the camera); hands the camera the computed display orientation and changes nothing else |
| Lifecycle.MainActivity.SurfaceChanged | app/src/main/java/edu/doane/ist/camtest8/MainActivity.java:109-133 | requires a handle (line 113 reaches line 178 without a check). Always sets the display orientation. Only when the holder has a surface does it stop the preview and bind and start it again. The handle never changes |
| Lifecycle.MainActivity.SurfaceDestroyed | app/src/main/java/edu/doane/ist/camtest8/MainActivity.java:140-144 | requires a handle (unguarded at line 141). Issues stop then release; afterwards the handle is null and no preview runs |
| Lifecycle.MainActivity.SurfaceChangedGuarded | app/src/main/java/edu/doane/ist/camtest8/MainActivity.java:109-133 | corrected `surfaceChanged`: without a handle nothing changes; with one it behaves as `SurfaceChanged` |
| Lifecycle.MainActivity.SurfaceDestroyedGuarded | app/src/main/java/edu/doane/ist/camtest8/MainActivity.java:140-144 | corrected `surfaceDestroyed`: afterwards the handle is null and no preview runs, whatever the handle was before |
| Lifecycle.FailedOpenLeavesNoHandle | app/src/main/java/edu/doane/ist/camtest8/MainActivity.java:57-64 | after `Camera.open()` throws the activity has no handle and has made no call: the state in which `surfaceChanged` and `surfaceDestroyed` dereference null |
| Lifecycle.FailedOpenCallbacks | app/src/main/java/edu/doane/ist/camtest8/MainActivity.java:57-144 | with the null checks, created (open throws or returns null), changed and destroyed leave no handle, no preview and no platform call |
| Lifecycle.SuccessfulLifecycle | app/src/main/java/edu/doane/ist/camtest8/MainActivity.java:57-144 | created, changed to ROTATION_90, then destroyed, with every call succeeding. The exact call sequence is open, set parameters, bind, start, set orientation, stop, bind, start, stop, release. The handle ends null |

## Findings

| source | as written | input that shows it | evidently intended | confidence | as-written member | corrected member |
|---|---|---|---|---|---|---|
| app/src/main/java/edu/doane/ist/camtest8/MainActivity.java:113 | `surfaceChanged` calls `setCameraDisplayOrientation(this, 0, mCamera)`, which calls `camera.setDisplayOrientation` with no null check | `Camera.open()` throws in `surfaceCreated` (camera in use by another application), so `mCamera` stays null; the platform then calls `surfaceChanged` | skip the camera calls when there is no handle; open failures are logged and never crash the activity | not executed; high | Lifecycle.FailedOpenLeavesNoHandle | Lifecycle.MainActivity.SurfaceChangedGuarded |
| app/src/main/java/edu/doane/ist/camtest8/MainActivity.java:141 | `surfaceDestroyed` calls `mCamera.stopPreview()` with no null check | the same failed open, followed by the surface being destroyed | release only a handle that exists | not executed; high | Lifecycle.MainActivity.SurfaceDestroyed | Lifecycle.MainActivity.SurfaceDestroyedGuarded |
| app/src/main/java/edu/doane/ist/camtest8/MainActivity.java:67 | `mCamera.getParameters()` is called on the result of `Camera.open()` with no null check | a device without a back-facing camera, where `Camera.open()` returns null instead of throwing | treat a null camera like a failed open and return | not executed; high | Lifecycle.MainActivity.SurfaceCreated | Lifecycle.MainActivity.SurfaceCreatedGuarded |

## Left out

- The reticle view (`MySurfaceView.java`) is left out. Its geometry is floating point (`0.95f`, `/ 9.0f`, accumulated `x += delta`, stroke width from display density) and its only output is canvas drawing calls.
- `onCreate` is left out: it only inflates the layout and registers the activity as the surface callback.
- `Log.e` logging is not modelled; a logged failure changes nothing in the model.
- The platform camera's own behaviour is not modelled: whether it honours the focus, scene and white-balance hints, what `getParameters` reports (a parameter here), and where `setPreviewDisplay` sends frames.
- `setParameters`, `setDisplayOrientation`, and the `stopPreview` and `release` in `surfaceDestroyed` sit outside any `try` block. The model assumes they return normally; an exception from them would end the activity.
- Opening a camera while a handle is still held overwrites the reference, as the source does; the earlier handle is never released. The platform pairs `surfaceCreated` with `surfaceDestroyed`, so this does not arise, and the model does not count leaked handles.
- The `surfaceHolder` argument of each callback is unused by the source, which uses its own holder field; the model reduces that holder to whether it has a surface.
- Orientation.DisplayOrientationCompensates: stated only for sensor angles from 0 to 2^31 - 361. Larger angles wrap around in Java's `int`, and negative angles give a negative back-camera result. Real sensors report 0, 90, 180 or 270.
- Orientation.QuarterTurns: stated under the same sensor-angle bound, because wrap-around modulo 2^32 does not preserve multiples of 90.
- Orientation.DeviceQuarterTurn: stated under the same sensor-angle bound.
- Orientation.DisplayOrientationCharacterised: stated under the same sensor-angle bound.
