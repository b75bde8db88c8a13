/**
  `src/openxr/extensions/xr_ext_hand_tracking_extension_wrapper.cpp`: the
  wrapper of `XR_EXT_hand_tracking` and `XR_EXT_hand_joints_motion_range`.
  It owns one tracker per hand in a fixed array of two, creates a hand's
  tracker lazily on the first frame after hand tracking was found
  supported, locates its joints every frame, and destroys the trackers
  when the session stops.
 */
module HandTrackingWrapper {
  import opened Wrappers
  import opened OpenXRCommon

  const MAX_TRACKED_HANDS: int := 2
  const XR_NULL_HANDLE: int := 0
  const XR_HAND_JOINTS_MOTION_RANGE_UNOBSTRUCTED_EXT: int := 1

  /** The palm positions beyond this many metres are taken as a lost hand. */
  const PALM_LIMIT: real := 1000000.0

  /**
    A `HandTracker`: whether it was created, its motion range, its handle
    and the `isActive` flag of its joint locations. The joint poses are
    not part of this model.
   */
  datatype HandTracker = HandTracker(isInitialised: bool, motionRange: int, handle: int, locationsActive: bool)

  /** The member initialisers of `HandTracker`. */
  const INITIAL_TRACKER: HandTracker := HandTracker(false, XR_HAND_JOINTS_MOTION_RANGE_UNOBSTRUCTED_EXT, XR_NULL_HANDLE, false)

  /**
    What the runtime answers for one hand in one frame: the result of
    `xrCreateHandTrackerEXT` and the handle it creates (used only when the
    tracker has no handle), the result of `xrLocateHandJointsEXT`, the
    `isActive` flag it reports, and the palm's x coordinate (`None` for NaN).
   */
  datatype HandFrame = HandFrame(createResult: int, createdHandle: int, locateResult: int, reportedActive: bool, palmX: Option<real>)

  /** The work-around for runtimes that report a lost hand as active: the palm must be a number within the limit. */
  predicate PalmPlausible(palmX: Option<real>)
  {
    palmX.Some? && -PALM_LIMIT <= palmX.value <= PALM_LIMIT
  }

  /** A tracker after `cleanup_hand_tracking`: one with a handle is destroyed, the motion range survives. */
  function CleanedUp(t: HandTracker): (r: HandTracker)
    ensures r.handle == XR_NULL_HANDLE && r.motionRange == t.motionRange
    ensures t.handle != XR_NULL_HANDLE ==> !r.isInitialised
    ensures t.handle == XR_NULL_HANDLE ==> r == t
  {
    if t.handle != XR_NULL_HANDLE then t.(isInitialised := false, handle := XR_NULL_HANDLE) else t
  }

  /**
    One hand in `update_handtracking`. A tracker without a handle is
    created first (with its locations inactive); a created tracker is then
    located, and a successful location sets `isActive` only for an active,
    plausible palm. A failed location leaves the tracker as it was.
   */
  function Updated(t: HandTracker, f: HandFrame): (r: HandTracker)
    ensures r.motionRange == t.motionRange
    ensures t.handle != XR_NULL_HANDLE ==> r.handle == t.handle && r.isInitialised == t.isInitialised
    ensures t.handle == XR_NULL_HANDLE ==>
              (r.isInitialised <==> XrSucceeded(f.createResult))
              && r.handle == (if XrSucceeded(f.createResult) then f.createdHandle else t.handle)
    ensures !r.isInitialised ==> r.locationsActive == (if t.handle == XR_NULL_HANDLE && XrSucceeded(f.createResult) then false else t.locationsActive)
    ensures r.isInitialised && XrSucceeded(f.locateResult) ==> (r.locationsActive <==> f.reportedActive && PalmPlausible(f.palmX))
  {
    var created :=
      if t.handle != XR_NULL_HANDLE then t
      else if XrSucceeded(f.createResult) then t.(handle := f.createdHandle, locationsActive := false, isInitialised := true)
      else t.(isInitialised := false);
    if created.isInitialised && XrSucceeded(f.locateResult) then
      created.(locationsActive := f.reportedActive && PalmPlausible(f.palmX))
    else created
  }

  class HandTrackingExtensionWrapper {
    var handTrackingExt: bool
    var handMotionRangeExt: bool
    var handTrackingSupported: bool
    /** `hand_trackers`, fixed for the left and the right hand. */
    const handTrackers: array<HandTracker>
    /** The handles given to `xrDestroyHandTrackerEXT`, oldest first. */
    var destroyed: seq<int>

    ghost predicate Valid()
      reads this
    {
      handTrackers.Length == MAX_TRACKED_HANDS
    }

    /** The member initialisers: nothing requested or supported, two fresh trackers. */
    constructor ()
      ensures Valid() && fresh(handTrackers)
      ensures !handTrackingExt && !handMotionRangeExt && !handTrackingSupported && destroyed == []
      ensures handTrackers[..] == [INITIAL_TRACKER, INITIAL_TRACKER]
    {
      handTrackingExt := false;
      handMotionRangeExt := false;
      handTrackingSupported := false;
      handTrackers := new HandTracker[2](_ => INITIAL_TRACKER);
      destroyed := [];
    }

    /** The OpenXR layer writes through the two requested-extension pointers whether the runtime offers them. */
    method OnExtensionsRequested(handTracking: bool, motionRange: bool)
      modifies this`handTrackingExt, this`handMotionRangeExt
      ensures handTrackingExt == handTracking && handMotionRangeExt == motionRange
    {
      handTrackingExt := handTracking;
      handMotionRangeExt := motionRange;
    }

    /** `on_instance_initialized`: a failure to load the entry points disables hand tracking. */
    method OnInstanceInitialized(loadResult: int)
      modifies this`handTrackingExt
      ensures handTrackingExt <==> old(handTrackingExt) && XrSucceeded(loadResult)
    {
      if handTrackingExt {
        if !XrResult(loadResult) {
          handTrackingExt := false;
        }
      }
    }

    /** `get_hand_tracker`: the tracker of hand 0 or 1, and null for any other index. */
    function GetHandTracker(hand: nat): (t: Option<HandTracker>)
      requires Valid()
      reads this, handTrackers
      ensures t.Some? <==> hand < MAX_TRACKED_HANDS
      ensures t.Some? ==> t.value == handTrackers[hand]
    {
      if hand < MAX_TRACKED_HANDS then Some(handTrackers[hand]) else None
    }

    /** `get_motion_range`: the tracker's range, and `UNOBSTRUCTED` for any other index. */
    function GetMotionRange(hand: nat): (range: int)
      requires Valid()
      reads this, handTrackers
      ensures hand < MAX_TRACKED_HANDS ==> range == handTrackers[hand].motionRange
      ensures hand >= MAX_TRACKED_HANDS ==> range == XR_HAND_JOINTS_MOTION_RANGE_UNOBSTRUCTED_EXT
    {
      if hand < MAX_TRACKED_HANDS then handTrackers[hand].motionRange else XR_HAND_JOINTS_MOTION_RANGE_UNOBSTRUCTED_EXT
    }

    /** `set_motion_range`: stored for hand 0 or 1 and read back by `get_motion_range`; any other index changes nothing. */
    method SetMotionRange(hand: nat, range: int)
      requires Valid()
      modifies handTrackers
      ensures Valid()
      ensures hand < MAX_TRACKED_HANDS ==> handTrackers[..] == old(handTrackers[..])[hand := old(handTrackers[hand]).(motionRange := range)]
      ensures hand < MAX_TRACKED_HANDS ==> GetMotionRange(hand) == range
      ensures hand >= MAX_TRACKED_HANDS ==> handTrackers[..] == old(handTrackers[..])
    {
      if hand < MAX_TRACKED_HANDS {
        handTrackers[hand] := handTrackers[hand].(motionRange := range);
      }
    }

    /**
      `initialize_hand_tracking` (also `on_state_ready`): false while the
      extension is off, when the system properties cannot be read
      (`propertiesResult`) or when the system lacks hand tracking
      (`supportsHandTracking`). Otherwise both trackers are reset to
      uncreated, with their motion ranges kept, and hand tracking is
      marked supported.
     */
    method InitializeHandTracking(propertiesResult: int, supportsHandTracking: bool) returns (ok: bool)
      requires Valid()
      modifies this`handTrackingSupported, handTrackers
      ensures Valid()
      ensures ok <==> handTrackingExt && XrSucceeded(propertiesResult) && supportsHandTracking
      ensures ok ==> handTrackingSupported && forall i :: 0 <= i < MAX_TRACKED_HANDS ==>
                handTrackers[i] == old(handTrackers[i]).(isInitialised := false, handle := XR_NULL_HANDLE)
      ensures !ok ==> handTrackingSupported == old(handTrackingSupported) && handTrackers[..] == old(handTrackers[..])
    {
      if !handTrackingExt {
        return false;
      }
      if !XrResult(propertiesResult) {
        return false;
      }
      if !supportsHandTracking {
        return false;
      }
      var i := 0;
      while i < 2
        invariant 0 <= i <= 2
        invariant forall j :: 0 <= j < i ==> handTrackers[j] == old(handTrackers[j]).(isInitialised := false, handle := XR_NULL_HANDLE)
        invariant forall j :: i <= j < 2 ==> handTrackers[j] == old(handTrackers[j])
      {
        handTrackers[i] := handTrackers[i].(isInitialised := false, handle := XR_NULL_HANDLE);
        i := i + 1;
      }
      handTrackingSupported := true;
      ok := true;
    }

    /**
      `cleanup_hand_tracking` (also `on_state_stopping`): every tracker
      with a handle is destroyed, in hand order, and marked uncreated.
     */
    method CleanupHandTracking()
      requires Valid()
      modifies this`destroyed, handTrackers
      ensures Valid()
      ensures forall i :: 0 <= i < MAX_TRACKED_HANDS ==> handTrackers[i] == CleanedUp(old(handTrackers[i]))
      ensures destroyed == old(destroyed) + DestroyedHandles(old(handTrackers[..]))
    {
      var i := 0;
      ghost var start := handTrackers[..];
      while i < 2
        invariant 0 <= i <= 2
        invariant forall j :: 0 <= j < i ==> handTrackers[j] == CleanedUp(start[j])
        invariant forall j :: i <= j < 2 ==> handTrackers[j] == start[j]
        invariant destroyed == old(destroyed) + DestroyedHandles(start[..i])
      {
        assert start[..i + 1][..i] == start[..i];
        if handTrackers[i].handle != XR_NULL_HANDLE {
          destroyed := destroyed + [handTrackers[i].handle];
          handTrackers[i] := handTrackers[i].(isInitialised := false, handle := XR_NULL_HANDLE);
        }
        i := i + 1;
      }
      assert start[..2] == start;
    }

    /** `cleanup` (also `on_instance_destroyed`): the trackers are cleaned up and all three flags cleared. */
    method Cleanup()
      requires Valid()
      modifies this`destroyed, this`handTrackingExt, this`handMotionRangeExt, this`handTrackingSupported, handTrackers
      ensures Valid()
      ensures forall i :: 0 <= i < MAX_TRACKED_HANDS ==> handTrackers[i] == CleanedUp(old(handTrackers[i]))
      ensures destroyed == old(destroyed) + DestroyedHandles(old(handTrackers[..]))
      ensures !handTrackingExt && !handMotionRangeExt && !handTrackingSupported
    {
      CleanupHandTracking();
      handTrackingExt := false;
      handMotionRangeExt := false;
      handTrackingSupported := false;
    }

    /**
      `update_handtracking` (`on_process_openxr` off Android): nothing
      while hand tracking is unsupported; otherwise each hand in turn is
      created when it has no handle and located when created.
     */
    method UpdateHandTracking(frames: seq<HandFrame>)
      requires Valid() && |frames| == MAX_TRACKED_HANDS
      modifies handTrackers
      ensures Valid()
      ensures !handTrackingSupported ==> handTrackers[..] == old(handTrackers[..])
      ensures handTrackingSupported ==> forall i :: 0 <= i < MAX_TRACKED_HANDS ==>
                handTrackers[i] == Updated(old(handTrackers[i]), frames[i])
    {
      if !handTrackingSupported {
        return;
      }
      var i := 0;
      while i < 2
        invariant 0 <= i <= 2
        invariant forall j :: 0 <= j < i ==> handTrackers[j] == Updated(old(handTrackers[j]), frames[j])
        invariant forall j :: i <= j < 2 ==> handTrackers[j] == old(handTrackers[j])
      {
        var t := handTrackers[i];
        var f := frames[i];
        if t.handle == XR_NULL_HANDLE {
          if !XrResult(f.createResult) {
            t := t.(isInitialised := false);
          } else {
            t := t.(handle := f.createdHandle, locationsActive := false, isInitialised := true);
          }
        }
        if t.isInitialised {
          if XrResult(f.locateResult) {
            if !f.reportedActive || f.palmX.None? || f.palmX.value < -PALM_LIMIT || f.palmX.value > PALM_LIMIT {
              t := t.(locationsActive := false);
            } else {
              t := t.(locationsActive := f.reportedActive);
            }
          }
        }
        handTrackers[i] := t;
        i := i + 1;
      }
    }
  }

  /** The handles `cleanup_hand_tracking` destroys: those of the trackers that have one, in hand order. */
  function DestroyedHandles(trackers: seq<HandTracker>): (handles: seq<int>)
    ensures |handles| <= |trackers|
    ensures forall h :: h in handles ==> h != XR_NULL_HANDLE
    ensures forall i :: 0 <= i < |trackers| && trackers[i].handle != XR_NULL_HANDLE ==> trackers[i].handle in handles
  {
    if trackers == [] then []
    else
      var n := |trackers| - 1;
      var init := DestroyedHandles(trackers[..n]);
      assert forall i :: 0 <= i < n ==> trackers[..n][i] == trackers[i];
      if trackers[n].handle != XR_NULL_HANDLE then init + [trackers[n].handle] else init
  }

  /** Cleaning up twice destroys nothing the second time. */
  lemma CleanupTwiceDestroysNothing(trackers: seq<HandTracker>)
    ensures DestroyedHandles(seq(|trackers|, i requires 0 <= i < |trackers| => CleanedUp(trackers[i]))) == []
  {
    var cleaned := seq(|trackers|, i requires 0 <= i < |trackers| => CleanedUp(trackers[i]));
    NoHandleNoneDestroyed(cleaned);
  }

  lemma {:induction false} NoHandleNoneDestroyed(trackers: seq<HandTracker>)
    requires forall i :: 0 <= i < |trackers| ==> trackers[i].handle == XR_NULL_HANDLE
    ensures DestroyedHandles(trackers) == []
  {
    if trackers != [] {
      var n := |trackers| - 1;
      NoHandleNoneDestroyed(trackers[..n]);
    }
  }
}
