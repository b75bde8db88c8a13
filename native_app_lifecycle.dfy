/**
  The Android lifecycle and OpenXR session bookkeeping that the native
  samples share: the XrApp framework class, the compositor sample's
  `ovrApp` and the passthrough sample's `App` carry the same fields and the
  same handlers, written out three times in the sources.
 */
module NativeAppLifecycle {
  import opened Wrappers
  import opened XrPerfSettingsLevel

  // Commands of `android_native_app_glue.h`.
  const APP_CMD_INIT_WINDOW: int := 1
  const APP_CMD_TERM_WINDOW: int := 2
  const APP_CMD_START: int := 10
  const APP_CMD_RESUME: int := 11
  const APP_CMD_PAUSE: int := 13
  const APP_CMD_STOP: int := 14
  const APP_CMD_DESTROY: int := 15

  // `XrSessionState` values of the OpenXR 1.0 headers that the handlers test.
  const XR_SESSION_STATE_READY: int := 2
  const XR_SESSION_STATE_VISIBLE: int := 4
  const XR_SESSION_STATE_FOCUSED: int := 5
  const XR_SESSION_STATE_STOPPING: int := 6

  const XR_SUCCESS: int := 0

  /** An `ANativeWindow*`; 0 stands for `NULL`. */
  type WindowHandle = nat

  /** The CPU and GPU performance levels requested from the runtime. */
  datatype PerfRequest = PerfRequest(cpu: PerfLevel, gpu: PerfLevel)

  class AppLifecycle {
    var nativeWindow: WindowHandle
    var resumed: bool
    var focused: bool
    var sessionActive: bool
    var cpuLevel: int
    var gpuLevel: int

    /** `Clear()` followed by the start-up assignment of the CPU and GPU levels. */
    constructor (cpuLevel: int, gpuLevel: int)
      ensures nativeWindow == 0 && !resumed && !focused && !sessionActive
      ensures this.cpuLevel == cpuLevel && this.gpuLevel == gpuLevel
    {
      nativeWindow := 0;
      resumed := false;
      focused := false;
      sessionActive := false;
      this.cpuLevel := cpuLevel;
      this.gpuLevel := gpuLevel;
    }

    /**
      The event-poll timeout of the main loop: block (-1) only while the
      activity is paused, no session runs and no destroy was requested.
     */
    function PollTimeout(destroyRequested: bool): (timeout: int)
      reads this
      ensures timeout == -1 || timeout == 0
      ensures timeout == -1 <==> !resumed && !sessionActive && !destroyRequested
    {
      if !resumed && !sessionActive && !destroyRequested then -1 else 0
    }

    /**
      `app_handle_cmd` / `HandleAndroidCmd`: RESUME and PAUSE set and clear
      `Resumed`, INIT_WINDOW takes the new window, TERM_WINDOW and DESTROY
      drop it; START, STOP and every other command change nothing.
     */
    method HandleAndroidCmd(cmd: int, window: WindowHandle)
      modifies this`resumed, this`nativeWindow
      ensures cmd == APP_CMD_RESUME ==> resumed
      ensures cmd == APP_CMD_PAUSE ==> !resumed
      ensures cmd != APP_CMD_RESUME && cmd != APP_CMD_PAUSE ==> resumed == old(resumed)
      ensures cmd == APP_CMD_INIT_WINDOW ==> nativeWindow == window
      ensures cmd == APP_CMD_TERM_WINDOW || cmd == APP_CMD_DESTROY ==> nativeWindow == 0
      ensures (cmd != APP_CMD_INIT_WINDOW && cmd != APP_CMD_TERM_WINDOW && cmd != APP_CMD_DESTROY) ==>
        nativeWindow == old(nativeWindow)
    {
      if cmd == APP_CMD_RESUME {
        resumed := true;
      } else if cmd == APP_CMD_PAUSE {
        resumed := false;
      } else if cmd == APP_CMD_DESTROY || cmd == APP_CMD_TERM_WINDOW {
        nativeWindow := 0;
      } else if cmd == APP_CMD_INIT_WINDOW {
        nativeWindow := window;
      }
    }

    /**
      `HandleSessionStateChanges`: on READY the session is begun (the
      runtime's answer is `beginResult`) and is active exactly when that
      answer is `XR_SUCCESS`, in which case the CPU and GPU levels are
      requested; on STOPPING the session is ended. The source asserts its
      expectations about the lifecycle flags; they are the preconditions.
     */
    method HandleSessionStateChanges(state: int, beginResult: int) returns (request: Option<PerfRequest>)
      requires state == XR_SESSION_STATE_READY ==> resumed && nativeWindow != 0 && !sessionActive
      requires state == XR_SESSION_STATE_STOPPING ==> !resumed && sessionActive
      modifies this`sessionActive
      ensures state == XR_SESSION_STATE_READY ==> (sessionActive <==> beginResult == XR_SUCCESS)
      ensures state == XR_SESSION_STATE_STOPPING ==> !sessionActive
      ensures state != XR_SESSION_STATE_READY && state != XR_SESSION_STATE_STOPPING ==>
        sessionActive == old(sessionActive)
      ensures request.Some? <==> state == XR_SESSION_STATE_READY && sessionActive
      ensures request.Some? ==> request.value == PerfRequest(FromSampleLevel(cpuLevel), FromSampleLevel(gpuLevel))
    {
      request := None;
      if state == XR_SESSION_STATE_READY {
        sessionActive := beginResult == XR_SUCCESS;
        if sessionActive {
          request := Some(PerfRequest(FromSampleLevel(cpuLevel), FromSampleLevel(gpuLevel)));
        }
      } else if state == XR_SESSION_STATE_STOPPING {
        sessionActive := false;
      }
    }

    /**
      The `XR_TYPE_EVENT_DATA_SESSION_STATE_CHANGED` case of
      `HandleXrEvents`: FOCUSED sets `Focused`, VISIBLE clears it, READY and
      STOPPING go to `HandleSessionStateChanges`, other states are ignored.
     */
    method HandleSessionStateChangedEvent(state: int, beginResult: int) returns (request: Option<PerfRequest>)
      requires state == XR_SESSION_STATE_READY ==> resumed && nativeWindow != 0 && !sessionActive
      requires state == XR_SESSION_STATE_STOPPING ==> !resumed && sessionActive
      modifies this`focused, this`sessionActive
      ensures state == XR_SESSION_STATE_FOCUSED ==> focused
      ensures state == XR_SESSION_STATE_VISIBLE ==> !focused
      ensures state != XR_SESSION_STATE_FOCUSED && state != XR_SESSION_STATE_VISIBLE ==> focused == old(focused)
      ensures state == XR_SESSION_STATE_READY ==> (sessionActive <==> beginResult == XR_SUCCESS)
      ensures state == XR_SESSION_STATE_STOPPING ==> !sessionActive
      ensures state != XR_SESSION_STATE_READY && state != XR_SESSION_STATE_STOPPING ==>
        sessionActive == old(sessionActive)
      ensures request.Some? <==> state == XR_SESSION_STATE_READY && sessionActive
      ensures request.Some? ==> request.value == PerfRequest(FromSampleLevel(cpuLevel), FromSampleLevel(gpuLevel))
    {
      request := None;
      if state == XR_SESSION_STATE_FOCUSED {
        focused := true;
      } else if state == XR_SESSION_STATE_VISIBLE {
        focused := false;
      } else if state == XR_SESSION_STATE_READY || state == XR_SESSION_STATE_STOPPING {
        request := HandleSessionStateChanges(state, beginResult);
      }
    }
  }
}
