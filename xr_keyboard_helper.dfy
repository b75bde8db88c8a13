/**
  `XrKeyboard/Src/xr_keyboard_helper.h`: the helper that follows the
  system's tracked keyboard through the keyboard-tracking extension
  (`XR_FB_keyboard_tracking`). It remembers whether a keyboard exists,
  whether it is connected, whether a keyboard space is being tracked, and
  raises a "state changed" flag that the application reads and clears.

  Every runtime call (`xrQuerySystemTrackedKeyboardFB`,
  `xrCreateKeyboardSpaceFB`, `xrDestroySpace`, `xrLocateSpace`) is a
  parameter: its `XrResult`, and the handle or description it writes.
 */
module XrKeyboardHelperH {

  /** `XrResult`: negative codes are failures (`XR_FAILED`), the rest successes. */
  type XrResult = int

  predicate Succeeded(r: XrResult) { r >= 0 }

  /** `_oxr`: the helper's wrapper around a runtime call, true iff the call succeeded. */
  function Oxr(r: XrResult): (ok: bool)
    ensures ok <==> Succeeded(r)
  {
    !(r < 0)
  }

  /** `XrKeyboardTrackingFlagsFB` bits of `fb_keyboard_tracking.h`. */
  const EXISTS_BIT: bv64 := 0x1
  const LOCAL_BIT: bv64 := 0x2
  const REMOTE_BIT: bv64 := 0x4
  const CONNECTED_BIT: bv64 := 0x8

  /**
    The orientation/position valid and tracked bits of
    `XrSpaceLocationFlags` (0x1, 0x2, 0x4, 0x8 in the OpenXR 1.0 headers),
    together.
   */
  const LOCATION_ALL_BITS: bv64 := 0xF

  datatype Vec3 = Vec3(x: real, y: real, z: real)

  /** `XrKeyboardTrackingDescriptionFB`, without the display name. */
  datatype Description = Description(trackedKeyboardId: nat, flags: bv64, size: Vec3)

  /** The answers of the runtime to the destroy and create calls one helper operation makes. */
  datatype Runtime = Runtime(destroyResult: XrResult, createResult: XrResult, createdSpace: nat)

  /**
    The condition `StartTrackingSystemKeyboard` tests, AS WRITTEN:
    `XR_SUCCEEDED(oxr(create(...)))`. `oxr` already turned the result into
    a `bool`, which converts to 0 or 1, and both are `>= 0`.
   */
  function CreateAcceptedAsWritten(createResult: XrResult): (accepted: bool)
    ensures accepted
  {
    var asInt := if Oxr(createResult) then 1 else 0;
    Succeeded(asInt)
  }

  /** A failed creation (any negative `XrResult`) is still reported as a started tracking. */
  lemma FailedCreateAcceptedAsWritten()
    ensures !Succeeded(-1) && CreateAcceptedAsWritten(-1)
  {
  }

  /** The intended test: the creation call itself succeeded. */
  function CreateAccepted(createResult: XrResult): (accepted: bool)
    ensures accepted <==> Succeeded(createResult)
  {
    Oxr(createResult)
  }

  class XrKeyboardHelper {
    /** `xrQuerySystemTrackedKeyboardFB_` / `xrCreateKeyboardSpaceFB_` were found. */
    const hasQueryFunction: bool
    const hasCreateFunction: bool

    /** `session_`; 0 stands for `XR_NULL_HANDLE`. */
    var session: nat
    /** `keyboardSpace_`; 0 stands for `XR_NULL_HANDLE`. */
    var keyboardSpace: nat
    /** `location_.locationFlags`. */
    var locationFlags: bv64
    var size: Vec3

    var trackSystemKeyboard: bool
    var trackingSystemKeyboard: bool
    var systemKeyboardExists: bool
    var systemKeyboardConnected: bool
    var systemKeyboardStateChanged: bool
    var requireKeyboardConnectedToTrack: bool
    var useRemoteKeyboard: bool
    var trackingRequired: bool
    var systemKeyboardDesc: Description

    /**
      The helper reports tracking the system keyboard only while it is asked
      to track it and a keyboard exists. (Connection is checked when
      tracking starts, but a later description of the wrong keyboard type
      updates the connection flag without revisiting the tracking.)
     */
    predicate Valid()
      reads this
    {
      trackingSystemKeyboard ==> trackSystemKeyboard && systemKeyboardExists
    }

    constructor (hasQuery: bool, hasCreate: bool)
      ensures Valid()
      ensures hasQueryFunction == hasQuery && hasCreateFunction == hasCreate
      ensures session == 0 && keyboardSpace == 0 && locationFlags == 0
      ensures trackSystemKeyboard && !trackingSystemKeyboard
      ensures !systemKeyboardExists && !systemKeyboardConnected && !systemKeyboardStateChanged
      ensures requireKeyboardConnectedToTrack && !useRemoteKeyboard && !trackingRequired
    {
      hasQueryFunction := hasQuery;
      hasCreateFunction := hasCreate;
      session := 0;
      keyboardSpace := 0;
      locationFlags := 0;
      size := Vec3(0.0, 0.0, 0.0);
      trackSystemKeyboard := true;
      trackingSystemKeyboard := false;
      systemKeyboardExists := false;
      systemKeyboardConnected := false;
      systemKeyboardStateChanged := false;
      requireKeyboardConnectedToTrack := true;
      useRemoteKeyboard := false;
      trackingRequired := false;
      systemKeyboardDesc := Description(0, 0, Vec3(0.0, 0.0, 0.0));
    }

    predicate IsTracking()
      reads this
    {
      keyboardSpace != 0
    }

    /**
      The location counts as active when a keyboard space is located with
      any tracked or valid bit, and always when tracking is not required.
     */
    function IsLocationActive(): (active: bool)
      reads this
      ensures !trackingRequired ==> active
      ensures trackingRequired ==> (active <==> keyboardSpace != 0 && locationFlags & LOCATION_ALL_BITS != 0)
    {
      (IsTracking() && locationFlags & LOCATION_ALL_BITS != 0) || !trackingRequired
    }

    method SessionInit(s: nat) returns (ok: bool)
      modifies this`session
      ensures session == s && ok
    {
      session := s;
      ok := true;
    }

    method SessionEnd(rt: Runtime) returns (ok: bool)
      modifies this`session, this`keyboardSpace
      ensures session == 0
      ensures ok <==> old(keyboardSpace) != 0 && Succeeded(rt.destroyResult)
      ensures keyboardSpace == if ok then 0 else old(keyboardSpace)
    {
      session := 0;
      ok := StopTracking(rt);
    }

    /** Destroys the keyboard space, if there is one; false when there is none or the call failed. */
    method StopTracking(rt: Runtime) returns (ok: bool)
      modifies this`keyboardSpace
      ensures ok <==> old(keyboardSpace) != 0 && Succeeded(rt.destroyResult)
      ensures keyboardSpace == if ok then 0 else old(keyboardSpace)
    {
      ok := false;
      if keyboardSpace != 0 {
        ok := Oxr(rt.destroyResult);
        if ok {
          keyboardSpace := 0;
        }
      }
    }

    /**
      Stops any tracking, then creates a space for the known keyboard.
      True exactly when a keyboard exists, the create function is present
      and the creation call succeeded (the corrected test, see
      `CreateAcceptedAsWritten`).
     */
    method StartTrackingSystemKeyboard(rt: Runtime) returns (ok: bool)
      modifies this`keyboardSpace, this`size
      ensures ok <==> hasCreateFunction && systemKeyboardExists && Succeeded(rt.createResult)
      ensures ok ==> keyboardSpace == rt.createdSpace && size == systemKeyboardDesc.size
      ensures !ok ==>
        (size == old(size)
         && keyboardSpace == if old(keyboardSpace) != 0 && Succeeded(rt.destroyResult) then 0 else old(keyboardSpace))
    {
      var _ := StopTracking(rt);
      ok := false;
      if hasCreateFunction && systemKeyboardExists {
        if CreateAccepted(rt.createResult) {
          keyboardSpace := rt.createdSpace;
          size := systemKeyboardDesc.size;
          ok := true;
        }
      }
    }

    /**
      Drops the current tracking and starts it again if the settings allow;
      always reports a state change.
     */
    method ResetSystemKeyboardTracking(rt: Runtime)
      modifies this`keyboardSpace, this`size, this`trackingSystemKeyboard, this`systemKeyboardStateChanged
      ensures Valid()
      ensures systemKeyboardStateChanged
      ensures trackingSystemKeyboard <==>
        trackSystemKeyboard && systemKeyboardExists
        && (systemKeyboardConnected || !requireKeyboardConnectedToTrack)
        && hasCreateFunction && Succeeded(rt.createResult)
      ensures trackingSystemKeyboard ==> keyboardSpace == rt.createdSpace
    {
      trackingSystemKeyboard := false;
      var _ := StopTracking(rt);
      if trackSystemKeyboard && systemKeyboardExists
        && (systemKeyboardConnected || !requireKeyboardConnectedToTrack)
      {
        var started := StartTrackingSystemKeyboard(rt);
        if started {
          trackingSystemKeyboard := true;
        }
      }
      systemKeyboardStateChanged := true;
    }

    method SetTracksSystemKeyboard(track: bool, rt: Runtime) returns (changed: bool)
      requires Valid()
      modifies this`keyboardSpace, this`size, this`trackingSystemKeyboard, this`systemKeyboardStateChanged,
        this`trackSystemKeyboard
      ensures Valid()
      ensures changed <==> track != old(trackSystemKeyboard)
      ensures trackSystemKeyboard == track
      ensures changed ==> systemKeyboardStateChanged
      ensures !changed ==> unchanged(this)
    {
      changed := false;
      if track != trackSystemKeyboard {
        trackSystemKeyboard := track;
        ResetSystemKeyboardTracking(rt);
        changed := true;
      }
    }

    method SetRequireKeyboardConnectedToTrack(require: bool, rt: Runtime) returns (changed: bool)
      requires Valid()
      modifies this`keyboardSpace, this`size, this`trackingSystemKeyboard, this`systemKeyboardStateChanged,
        this`requireKeyboardConnectedToTrack
      ensures Valid()
      ensures changed <==> require != old(requireKeyboardConnectedToTrack)
      ensures requireKeyboardConnectedToTrack == require
      ensures changed ==> systemKeyboardStateChanged
      ensures !changed ==> unchanged(this)
    {
      changed := false;
      if require != requireKeyboardConnectedToTrack {
        requireKeyboardConnectedToTrack := require;
        ResetSystemKeyboardTracking(rt);
        changed := true;
      }
    }

    /**
      Switching between the remote and the local keyboard forgets the
      keyboard found so far (and its tracking, when tracking is on); it
      does not restart tracking.
     */
    method SetUseRemoteKeyboard(state: bool, rt: Runtime) returns (changed: bool)
      requires Valid()
      modifies this`keyboardSpace, this`trackingSystemKeyboard, this`systemKeyboardStateChanged,
        this`systemKeyboardExists, this`useRemoteKeyboard
      ensures Valid()
      ensures changed <==> state != old(useRemoteKeyboard)
      ensures useRemoteKeyboard == state
      ensures changed ==> !systemKeyboardExists
      ensures changed && old(systemKeyboardExists) ==> systemKeyboardStateChanged
      ensures changed && old(systemKeyboardExists) && trackSystemKeyboard ==> !trackingSystemKeyboard
      ensures !(changed && old(systemKeyboardExists)) ==>
        systemKeyboardStateChanged == old(systemKeyboardStateChanged)
        && trackingSystemKeyboard == old(trackingSystemKeyboard) && keyboardSpace == old(keyboardSpace)
    {
      changed := false;
      if state != useRemoteKeyboard {
        if systemKeyboardExists {
          systemKeyboardExists := false;
          if trackSystemKeyboard {
            var _ := StopTracking(rt);
            trackingSystemKeyboard := false;
          }
          systemKeyboardStateChanged := true;
        }
        useRemoteKeyboard := state;
        changed := true;
      }
    }

    method SetTrackingRequired(state: bool, rt: Runtime) returns (changed: bool)
      requires Valid()
      modifies this`keyboardSpace, this`size, this`trackingSystemKeyboard, this`systemKeyboardStateChanged,
        this`trackingRequired
      ensures Valid()
      ensures changed <==> state != old(trackingRequired)
      ensures trackingRequired == state
      ensures changed ==> systemKeyboardStateChanged
      ensures !changed ==> unchanged(this)
    {
      changed := false;
      if state != trackingRequired {
        trackingRequired := state;
        ResetSystemKeyboardTracking(rt);
        changed := true;
      }
    }

    /** Reports whether the state changed since the last call, and clears the flag. */
    method GetAndClearSystemKeyboardStateChanged() returns (wasChanged: bool)
      modifies this`systemKeyboardStateChanged
      ensures wasChanged == old(systemKeyboardStateChanged)
      ensures !systemKeyboardStateChanged
    {
      wasChanged := false;
      if systemKeyboardStateChanged {
        systemKeyboardStateChanged := false;
        wasChanged := true;
      }
    }

    /** The description's keyboard is of the kind the helper queries for (remote or local). */
    static predicate CorrectKeyboardType(useRemote: bool, desc: Description)
    {
      if useRemote then desc.flags & REMOTE_BIT != 0 else desc.flags & LOCAL_BIT != 0
    }

    /**
      The query found a keyboard. A new keyboard (or a changed description)
      is recorded and reported; if it is of the kind queried for, tracking
      restarts when it is asked for and the keyboard is connected or no
      connection is required, and is dropped otherwise.
     */
    method OnKeyboardFound(desc: Description, rt: Runtime)
      requires Valid()
      modifies this`systemKeyboardExists, this`systemKeyboardDesc, this`systemKeyboardConnected,
        this`trackingSystemKeyboard, this`keyboardSpace, this`size, this`systemKeyboardStateChanged
      ensures Valid()
      ensures systemKeyboardExists
      ensures !NewKeyboard(old(systemKeyboardExists), old(systemKeyboardDesc), desc) ==> unchanged(this)
      ensures NewKeyboard(old(systemKeyboardExists), old(systemKeyboardDesc), desc) ==>
        systemKeyboardDesc == desc && systemKeyboardStateChanged
        && (systemKeyboardConnected <==> desc.flags & CONNECTED_BIT != 0)
      ensures (NewKeyboard(old(systemKeyboardExists), old(systemKeyboardDesc), desc)
               && CorrectKeyboardType(useRemoteKeyboard, desc)) ==>
        (trackingSystemKeyboard <==>
          trackSystemKeyboard && (systemKeyboardConnected || !requireKeyboardConnectedToTrack)
          && hasCreateFunction && Succeeded(rt.createResult))
      ensures !CorrectKeyboardType(useRemoteKeyboard, desc) ==>
        trackingSystemKeyboard == old(trackingSystemKeyboard) && keyboardSpace == old(keyboardSpace)
    {
      if NewKeyboard(systemKeyboardExists, systemKeyboardDesc, desc) {
        systemKeyboardExists := true;
        systemKeyboardDesc := desc;
        systemKeyboardConnected := desc.flags & CONNECTED_BIT != 0;
        if CorrectKeyboardType(useRemoteKeyboard, desc) {
          trackingSystemKeyboard := false;
          if trackSystemKeyboard {
            if systemKeyboardConnected || !requireKeyboardConnectedToTrack {
              var started := StartTrackingSystemKeyboard(rt);
              if started {
                trackingSystemKeyboard := true;
              }
            }
          }
          if !trackingSystemKeyboard {
            var _ := StopTracking(rt);
          }
        }
        systemKeyboardStateChanged := true;
      }
    }

    /** The query found no keyboard: a keyboard known so far is forgotten and the change reported. */
    method OnKeyboardMissing(rt: Runtime)
      requires Valid()
      modifies this`systemKeyboardExists, this`trackingSystemKeyboard, this`keyboardSpace,
        this`systemKeyboardStateChanged
      ensures Valid()
      ensures !systemKeyboardExists && !trackingSystemKeyboard
      ensures !old(systemKeyboardExists) ==> unchanged(this)
      ensures old(systemKeyboardExists) ==> systemKeyboardStateChanged
    {
      if systemKeyboardExists {
        systemKeyboardExists := false;
        if trackSystemKeyboard {
          var _ := StopTracking(rt);
          trackingSystemKeyboard := false;
        }
        systemKeyboardStateChanged := true;
      }
    }

    /**
      One frame: if the query function is present and the query succeeds,
      react to the keyboard it reports (or to its absence); then locate the
      keyboard space, if any. False only when that location call fails.
     */
    method Update(queryResult: XrResult, desc: Description, rt: Runtime, locateResult: XrResult,
                  located: bv64) returns (ok: bool)
      requires Valid()
      modifies this`systemKeyboardExists, this`systemKeyboardDesc, this`systemKeyboardConnected,
        this`trackingSystemKeyboard, this`keyboardSpace, this`size, this`systemKeyboardStateChanged,
        this`locationFlags
      ensures Valid()
      ensures ok <==> keyboardSpace == 0 || Succeeded(locateResult)
      ensures locationFlags == if keyboardSpace == 0 then old(locationFlags) else located
      ensures !(hasQueryFunction && Succeeded(queryResult)) ==>
        systemKeyboardExists == old(systemKeyboardExists)
        && systemKeyboardStateChanged == old(systemKeyboardStateChanged)
        && trackingSystemKeyboard == old(trackingSystemKeyboard)
        && keyboardSpace == old(keyboardSpace)
      ensures hasQueryFunction && Succeeded(queryResult) ==>
        (systemKeyboardExists <==> desc.flags & EXISTS_BIT != 0)
    {
      if hasQueryFunction && Oxr(queryResult) {
        if desc.flags & EXISTS_BIT != 0 {
          OnKeyboardFound(desc, rt);
        } else {
          OnKeyboardMissing(rt);
        }
      }
      ok := true;
      if keyboardSpace != 0 {
        locationFlags := located;
        ok := Oxr(locateResult);
      }
    }

    /** A reported keyboard is new when none was known or its id or flags differ. */
    static predicate NewKeyboard(known: bool, knownDesc: Description, desc: Description)
    {
      !known || knownDesc.trackedKeyboardId != desc.trackedKeyboardId || knownDesc.flags != desc.flags
    }
  }
}
