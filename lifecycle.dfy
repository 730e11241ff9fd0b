/** The camera-handle lifecycle of the main activity: the three surface
    callbacks open, reconfigure and release the camera. The platform camera is
    not modelled; what the activity controls is, namely its nullable handle,
    whether a preview it started is running, and the sequence of platform
    calls it has made that returned normally. Platform outcomes (whether the
    camera opens, whether a call throws) are parameters. */
module Lifecycle {
  import opened JavaInt
  import opened Orientation

  datatype Option<T> = None | Some(value: T)

  datatype Size = Size(width: int32, height: int32)

  /** The capture parameters the activity asks for. */
  const PREVIEW_SIZE: Size := Size(960, 720)
  const FOCUS_MODE_MACRO: string := "macro"
  const SCENE_MODE_STEADYPHOTO: string := "steadyphoto"
  const WHITE_BALANCE_FLUORESCENT: string := "fluorescent"

  /** A camera's parameter set: the four entries the activity sets, and
      everything else the device reports, which it passes back untouched. */
  datatype Parameters = Parameters(
    previewSize: Size,
    focusMode: string,
    sceneMode: string,
    whiteBalance: string,
    others: map<string, string>)

  /** The parameter set the activity builds from the one the device reports. */
  function Configure(p: Parameters): (q: Parameters)
    ensures q.previewSize == PREVIEW_SIZE
    ensures q.focusMode == FOCUS_MODE_MACRO && q.sceneMode == SCENE_MODE_STEADYPHOTO
    ensures q.whiteBalance == WHITE_BALANCE_FLUORESCENT
    ensures q.others == p.others
  {
    p.(previewSize := PREVIEW_SIZE,
       focusMode := FOCUS_MODE_MACRO,
       sceneMode := SCENE_MODE_STEADYPHOTO,
       whiteBalance := WHITE_BALANCE_FLUORESCENT)
  }

  /** An opaque reference to an open camera. */
  datatype CameraHandle = CameraHandle(id: nat)

  /** What opening the camera gives: an exception (the camera is in use or
      access is denied), null (the device has no back-facing camera), or a
      handle. */
  datatype OpenOutcome = Throws | ReturnsNull | Opened(handle: CameraHandle)

  /** A platform call made by the activity that returned normally. */
  datatype Call =
    | Open(handle: CameraHandle)
    | SetParameters(params: Parameters)
    | SetPreviewDisplay
    | StartPreview
    | StopPreview
    | SetDisplayOrientation(degrees: int32)
    | Release

  /** What a sequence of calls has done to the camera: the handle held,
      whether the preview is streaming, and the preview size last requested
      since the handle was opened. */
  datatype Session = Session(handle: Option<CameraHandle>, streaming: bool, previewSize: Option<Size>)

  const NoSession: Session := Session(None, false, None)

  /** One call that returned normally. A call on a null reference cannot
      return normally, so without a handle only `Open` and `Release` have an
      effect. */
  function Step(s: Session, c: Call): Session {
    match c
    case Open(h) => Session(Some(h), false, None)
    case Release => NoSession
    case _ =>
      if s.handle.None? then s
      else match c
        case SetParameters(p) => s.(previewSize := Some(p.previewSize))
        case StartPreview => s.(streaming := true)
        case StopPreview => s.(streaming := false)
        case _ => s
  }

  /** The session a sequence of calls leaves behind, replayed from the start.
      Whatever the calls, a preview streams only on an open camera, and with
      no camera open nothing remains of an earlier session. */
  function Replay(calls: seq<Call>): (s: Session)
    ensures s.streaming ==> s.handle.Some?
    ensures s.handle.None? ==> s == NoSession
  {
    if calls == [] then NoSession
    else Step(Replay(calls[..|calls| - 1]), calls[|calls| - 1])
  }

  lemma ReplaySnoc(calls: seq<Call>, c: Call)
    ensures Replay(calls + [c]) == Step(Replay(calls), c)
  {
    assert (calls + [c])[..|calls|] == calls;
  }

  /** Whatever came before, a release that returns normally leaves no handle
      and no preview. */
  lemma {:induction false} ReleaseEndsSession(calls: seq<Call>)
    ensures Replay(calls + [Release]) == NoSession
  {
    ReplaySnoc(calls, Release);
  }

  /** The calls that bind the surface and start the preview: `startPreview`
      is only reached when `setPreviewDisplay` returned normally. */
  function PreviewCalls(bindOk: bool, startOk: bool): (cs: seq<Call>)
    ensures StartPreview in cs <==> bindOk && startOk
    ensures SetPreviewDisplay in cs <==> bindOk
    ensures StartPreview in cs ==> cs == [SetPreviewDisplay, StartPreview]
    ensures StartPreview !in cs ==> cs == (if bindOk then [SetPreviewDisplay] else [])
  {
    (if bindOk then [SetPreviewDisplay] else []) + (if bindOk && startOk then [StartPreview] else [])
  }

  class MainActivity {
    /** The activity's camera reference; None stands for null. */
    var camera: Option<CameraHandle>
    /** Whether the preview the activity started is streaming. */
    var previewing: bool
    /** The platform calls the activity has made that returned normally. */
    var calls: seq<Call>

    /** The handle and the preview flag are what the calls made so far have
        left, and an open camera has always been asked for the 960x720
        preview size. */
    ghost predicate Valid()
      reads this
    {
      var s := Replay(calls);
      && s.handle == camera
      && s.streaming == previewing
      && (camera.Some? ==> s.previewSize == Some(PREVIEW_SIZE))
    }

    constructor ()
      ensures Valid() && camera.None? && !previewing && calls == []
    {
      camera := None;
      previewing := false;
      calls := [];
    }

    /** Records a platform call that returned normally. */
    method Issue(c: Call)
      modifies this`calls
      ensures calls == old(calls) + [c]
      ensures Replay(calls) == Step(Replay(old(calls)), c)
    {
      ReplaySnoc(calls, c);
      calls := calls + [c];
    }

    /** `surfaceCreated`. `open` is what opening the camera gives, `defaults`
        the parameters the new camera reports, `bindOk` and `startOk` whether
        binding the surface and starting the preview return normally. A
        throwing open returns before anything else is touched; otherwise the
        parameters, with the 960x720 preview size, are set before the preview
        is bound and started. A null result is stored and then dereferenced
        by `getParameters` without a check, so it is excluded. */
    method SurfaceCreated(open: OpenOutcome, defaults: Parameters, bindOk: bool, startOk: bool)
      requires Valid() && !open.ReturnsNull?
      modifies this
      ensures Valid()
      ensures open.Throws? ==> camera == old(camera) && previewing == old(previewing) && calls == old(calls)
      ensures open.Opened? ==> camera == Some(open.handle) && previewing == (bindOk && startOk)
      ensures open.Opened? ==>
        calls == old(calls) + [Open(open.handle), SetParameters(Configure(defaults))] + PreviewCalls(bindOk, startOk)
    {
      if open.Throws? {
        return;
      }
      OpenAndConfigure(open.handle, defaults);
      BindAndStart(bindOk, startOk);
    }

    /** `surfaceCreated` with the missing null check: a null result from
        opening the camera is treated like a throwing open. */
    method SurfaceCreatedGuarded(open: OpenOutcome, defaults: Parameters, bindOk: bool, startOk: bool)
      requires Valid()
      modifies this
      ensures Valid()
      ensures !open.Opened? ==> camera == old(camera) && previewing == old(previewing) && calls == old(calls)
      ensures open.Opened? ==> camera == Some(open.handle) && previewing == (bindOk && startOk)
      ensures open.Opened? ==>
        calls == old(calls) + [Open(open.handle), SetParameters(Configure(defaults))] + PreviewCalls(bindOk, startOk)
    {
      if open.ReturnsNull? {
        return;
      }
      SurfaceCreated(open, defaults, bindOk, startOk);
    }

    /** A camera that opened becomes the activity's camera and is given the
        configured parameters, before any preview call. */
    method OpenAndConfigure(handle: CameraHandle, defaults: Parameters)
      requires Valid()
      modifies this
      ensures Valid() && camera == Some(handle) && !previewing
      ensures calls == old(calls) + [Open(handle), SetParameters(Configure(defaults))]
    {
      camera := Some(handle);
      previewing := false;
      Issue(Open(handle));
      var param := Configure(defaults);
      Issue(SetParameters(param));
    }

    /** The `try` block that binds the surface and starts the preview; when
        either call throws, the exception is logged and the rest is skipped. */
    method BindAndStart(bindOk: bool, startOk: bool)
      requires Valid() && camera.Some?
      modifies this
      ensures Valid() && camera == old(camera)
      ensures previewing == ((bindOk && startOk) || old(previewing))
      ensures calls == old(calls) + PreviewCalls(bindOk, startOk)
    {
      if !bindOk {
        return;
      }
      Issue(SetPreviewDisplay);
      if !startOk {
        return;
      }
      Issue(StartPreview);
      previewing := true;
    }

    /** The `try` block that stops the preview; a throwing stop is swallowed
        and changes nothing. */
    method TryStopPreview(stopOk: bool)
      requires Valid() && camera.Some?
      modifies this
      ensures Valid() && camera == old(camera)
      ensures previewing == (!stopOk && old(previewing))
      ensures calls == old(calls) + (if stopOk then [StopPreview] else [])
    {
      if stopOk {
        Issue(StopPreview);
        previewing := false;
      }
    }

    /** `setCameraDisplayOrientation` on the activity's own camera: the
        orientation computed from the screen rotation and the camera's
        information is handed to the camera. Dereferences the handle without
        a check. */
    method SetCameraDisplayOrientation(rotation: int32, info: CameraInfo)
      requires Valid() && camera.Some?
      modifies this
      ensures Valid() && camera == old(camera) && previewing == old(previewing)
      ensures calls == old(calls) + [SetDisplayOrientation(DisplayOrientation(rotation, info))]
    {
      var result := DisplayOrientation(rotation, info);
      Issue(SetDisplayOrientation(result));
    }

    /** `surfaceChanged`. The orientation is always recomputed, which needs a
        handle. Only when the holder has a surface (`surfacePresent`) is the
        preview stopped (a throwing stop is swallowed and changes nothing)
        and bound and started again. */
    method SurfaceChanged(rotation: int32, info: CameraInfo, surfacePresent: bool,
                          stopOk: bool, bindOk: bool, startOk: bool)
      requires Valid() && camera.Some?
      modifies this
      ensures Valid() && camera == old(camera)
      ensures !surfacePresent ==> previewing == old(previewing)
      ensures surfacePresent ==>
        previewing == ((bindOk && startOk) || (!stopOk && old(previewing)))
      ensures calls == old(calls) + [SetDisplayOrientation(DisplayOrientation(rotation, info))]
                      + (if surfacePresent
                         then (if stopOk then [StopPreview] else []) + PreviewCalls(bindOk, startOk)
                         else [])
    {
      SetCameraDisplayOrientation(rotation, info);
      if surfacePresent {
        TryStopPreview(stopOk);
        BindAndStart(bindOk, startOk);
      }
    }

    /** `surfaceDestroyed`: stop the preview, release the camera and drop the
        reference. Dereferences the handle without a check. */
    method SurfaceDestroyed()
      requires Valid() && camera.Some?
      modifies this
      ensures Valid() && camera.None? && !previewing
      ensures calls == old(calls) + [StopPreview, Release]
    {
      Issue(StopPreview);
      previewing := false;
      Issue(Release);
      camera := None;
    }

    /** `surfaceChanged` with the missing null check: without a handle it
        returns at once and nothing changes. */
    method SurfaceChangedGuarded(rotation: int32, info: CameraInfo, surfacePresent: bool,
                                 stopOk: bool, bindOk: bool, startOk: bool)
      requires Valid()
      modifies this
      ensures Valid() && camera == old(camera)
      ensures old(camera).None? ==> previewing == old(previewing) && calls == old(calls)
      ensures old(camera).Some? && !surfacePresent ==> previewing == old(previewing)
      ensures old(camera).Some? && surfacePresent ==>
        previewing == ((bindOk && startOk) || (!stopOk && old(previewing)))
      ensures old(camera).Some? ==>
        calls == old(calls) + [SetDisplayOrientation(DisplayOrientation(rotation, info))]
                 + (if surfacePresent
                    then (if stopOk then [StopPreview] else []) + PreviewCalls(bindOk, startOk)
                    else [])
    {
      if camera.None? {
        return;
      }
      SurfaceChanged(rotation, info, surfacePresent, stopOk, bindOk, startOk);
    }

    /** `surfaceDestroyed` with the missing null check. */
    method SurfaceDestroyedGuarded()
      requires Valid()
      modifies this
      ensures Valid() && camera.None? && !previewing
      ensures old(camera).None? ==> calls == old(calls)
      ensures old(camera).Some? ==> calls == old(calls) + [StopPreview, Release]
    {
      if camera.None? {
        return;
      }
      SurfaceDestroyed();
    }
  }

  /** When the camera cannot be opened, the activity is left without a handle,
      which is exactly the state in which the platform's next callbacks,
      `surfaceChanged` and `surfaceDestroyed`, dereference null. */
  method FailedOpenLeavesNoHandle(defaults: Parameters, bindOk: bool, startOk: bool)
    returns (activity: MainActivity)
    ensures fresh(activity) && activity.Valid()
    ensures activity.camera.None? && activity.calls == []
  {
    activity := new MainActivity();
    activity.SurfaceCreated(Throws, defaults, bindOk, startOk);
  }

  /** With the null checks in place, the callbacks that follow a failed open,
      whether it threw or returned null, do nothing, and the activity ends as
      it began. */
  method FailedOpenCallbacks(open: OpenOutcome, rotation: int32, info: CameraInfo, defaults: Parameters)
    returns (camera: Option<CameraHandle>, previewing: bool, calls: seq<Call>)
    requires !open.Opened?
    ensures camera.None? && !previewing && calls == []
  {
    var activity := new MainActivity();
    activity.SurfaceCreatedGuarded(open, defaults, true, true);
    activity.SurfaceChangedGuarded(rotation, info, true, true, true, true);
    activity.SurfaceDestroyedGuarded();
    camera, previewing, calls := activity.camera, activity.previewing, activity.calls;
  }

  /** The full lifecycle when every platform call succeeds: the surface is
      created, the device is turned a quarter turn, and the surface is
      destroyed. The camera is configured before its preview starts, the
      preview is restarted once, and the handle ends released and null. */
  method SuccessfulLifecycle(handle: CameraHandle, defaults: Parameters, info: CameraInfo)
    returns (camera: Option<CameraHandle>, previewing: bool, calls: seq<Call>)
    ensures camera.None? && !previewing
    ensures calls == [Open(handle), SetParameters(Configure(defaults)), SetPreviewDisplay, StartPreview,
                      SetDisplayOrientation(DisplayOrientation(ROTATION_90, info)),
                      StopPreview, SetPreviewDisplay, StartPreview,
                      StopPreview, Release]
  {
    var activity := new MainActivity();
    activity.SurfaceCreated(Opened(handle), defaults, true, true);
    assert activity.previewing;
    activity.SurfaceChanged(ROTATION_90, info, true, true, true, true);
    activity.SurfaceDestroyed();
    camera, previewing, calls := activity.camera, activity.previewing, activity.calls;
  }
}
