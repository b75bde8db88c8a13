/**
  `src/gdclasses/OpenXRHand.cpp`, `OpenXRSkeleton.cpp` and `OpenXRPose.cpp`:
  the scene nodes that follow a tracked hand. Each holds the OpenXR
  object and the hand-tracking wrapper it was given at construction (either
  may be null). Per physics frame a node shows itself exactly while its
  hand is tracked and poses its joints, bones or itself; which transform
  each pose is taken relative to is modelled, the transform arithmetic is
  not. The Godot scene (the nodes under a hand, the bones of a skeleton) is
  passed in.
 */
module GdHandNodes {
  import opened Wrappers
  import opened HandJoints
  import opened PoseLookup
  import HandTrackingWrapper
  import OpenXRApiCpp
  import SeqOps



  /** Whether a physics frame does anything: both objects exist and OpenXR is initialised. */
  predicate Processing(api: OpenXRApiCpp.OpenXRApi?, wrapper: HandTrackingWrapper.HandTrackingExtensionWrapper?)
    reads api
  {
    api != null && wrapper != null && api.initialised
  }

  /** Whether hand `hand` is tracked: its tracker is set up and its joint locations are active. */
  predicate TrackerActive(wrapper: HandTrackingWrapper.HandTrackingExtensionWrapper, hand: int)
    requires wrapper.Valid() && (hand == 0 || hand == 1)
    reads wrapper, wrapper.handTrackers
  {
    wrapper.handTrackers[hand].isInitialised && wrapper.handTrackers[hand].locationsActive
  }

  // ---------------------------------------------------------------------
  // OpenXRHand

  /** The transform a joint node of `OpenXRHand` is made relative to: the reference frame for the palm, its parent's inverse otherwise. */
  function HandReference(i: int): (r: Reference)
    requires 0 <= i < XR_HAND_JOINT_COUNT_EXT
    ensures r == ReferenceFrame <==> i == 0
    ensures r != ReferenceFrame ==> r == JointInverse(PARENTS[i]) && 0 <= PARENTS[i] < i
  {
    ParentsFormTree();
    if PARENTS[i] == -1 then ReferenceFrame else JointInverse(PARENTS[i])
  }

  /** The poses of a tracked frame: every joint that has a node, in joint order, each relative to `HandReference`. */
  function HandPoses(joints: seq<bool>): (poses: seq<JointPose>)
    requires |joints| <= XR_HAND_JOINT_COUNT_EXT
    ensures forall p :: p in poses <==> 0 <= p.joint < |joints| && joints[p.joint] && p.relativeTo == HandReference(p.joint)
    ensures forall a, b :: 0 <= a < b < |poses| ==> poses[a].joint < poses[b].joint
  {
    if joints == [] then []
    else
      var n := |joints| - 1;
      var init := HandPoses(joints[..n]);
      assert forall k :: 0 <= k < n ==> joints[..n][k] == joints[k];
      init + (if joints[n] then [JointPose(n, HandReference(n))] else [])
  }

  class OpenXRHand {
    const api: OpenXRApiCpp.OpenXRApi?
    const wrapper: HandTrackingWrapper.HandTrackingExtensionWrapper?
    var hand: int
    var motionRange: int
    /** Whether `joints[i]` found a node. */
    var joints: seq<bool>
    var visible: bool

    ghost predicate Valid()
      reads this, wrapper
    {
      (hand == 0 || hand == 1) && |joints| == XR_HAND_JOINT_COUNT_EXT && (wrapper != null ==> wrapper.Valid())
    }

    /** The constructor: the left hand, unobstructed, no joint nodes yet. */
    constructor (api: OpenXRApiCpp.OpenXRApi?, wrapper: HandTrackingWrapper.HandTrackingExtensionWrapper?)
      requires wrapper != null ==> wrapper.Valid()
      ensures Valid() && this.api == api && this.wrapper == wrapper
      ensures hand == 0 && motionRange == 0 && visible
      ensures joints == seq(XR_HAND_JOINT_COUNT_EXT, _ => false)
    {
      this.api := api;
      this.wrapper := wrapper;
      hand := 0;
      motionRange := 0;
      joints := seq(XR_HAND_JOINT_COUNT_EXT, _ => false);
      visible := true;
    }

    /** `set_hand`: 1 is the right hand and every other value the left. */
    method SetHand(p: int)
      requires Valid()
      modifies this`hand
      ensures Valid() && hand == ClampHand(p)
    {
      hand := if p == 1 then 1 else 0;
    }

    /** `_set_motion_range`: hands the mapped range to the wrapper for this hand; without a wrapper nothing happens. */
    method ApplyMotionRange()
      requires Valid()
      modifies if wrapper != null then {wrapper.handTrackers} else {}
      ensures Valid()
      ensures wrapper != null ==>
                wrapper.handTrackers[..] == old(wrapper.handTrackers[..])[hand := old(wrapper.handTrackers[hand]).(motionRange := XrMotionRange(motionRange))]
      ensures wrapper != null ==> wrapper.GetMotionRange(hand) == XrMotionRange(motionRange)
    {
      if wrapper == null {
        return;
      }
      var xrMotionRange := match motionRange
        case 0 => XR_HAND_JOINTS_MOTION_RANGE_UNOBSTRUCTED_EXT
        case 1 => XR_HAND_JOINTS_MOTION_RANGE_CONFORMING_TO_CONTROLLER_EXT
        case _ => XR_HAND_JOINTS_MOTION_RANGE_CONFORMING_TO_CONTROLLER_EXT;
      wrapper.SetMotionRange(hand, xrMotionRange);
    }

    /** `set_motion_range`: stored, then applied. */
    method SetMotionRange(p: int)
      requires Valid()
      modifies this`motionRange, if wrapper != null then {wrapper.handTrackers} else {}
      ensures Valid() && motionRange == p
      ensures wrapper != null ==>
                wrapper.handTrackers[..] == old(wrapper.handTrackers[..])[hand := old(wrapper.handTrackers[hand]).(motionRange := XrMotionRange(p))]
    {
      motionRange := p;
      ApplyMotionRange();
    }

    /** `_ready`: joint `i` is the node found at `NodeName(i)` among `sceneNodes`; then the motion range is applied. */
    method Ready(sceneNodes: set<string>)
      requires Valid()
      modifies this`joints, if wrapper != null then {wrapper.handTrackers} else {}
      ensures Valid()
      ensures forall i :: 0 <= i < XR_HAND_JOINT_COUNT_EXT ==> joints[i] == (NodeName(i) in sceneNodes)
      ensures wrapper != null ==> wrapper.GetMotionRange(hand) == XrMotionRange(motionRange)
    {
      NodeNamesFollowParents();
      var i := 0;
      while i < XR_HAND_JOINT_COUNT_EXT
        invariant 0 <= i <= XR_HAND_JOINT_COUNT_EXT && |joints| == XR_HAND_JOINT_COUNT_EXT
        invariant forall k :: 0 <= k < i ==> joints[k] == (NodeName(k) in sceneNodes)
      {
        joints := joints[i := NodeName(i) in sceneNodes];
        i := i + 1;
      }
      ApplyMotionRange();
    }

    /** `is_active`: false without the objects or before initialisation; otherwise whether the hand is tracked. */
    predicate IsActive()
      requires Valid()
      reads this, api, wrapper, if wrapper != null then {wrapper.handTrackers} else {}
    {
      Processing(api, wrapper) && TrackerActive(wrapper, hand)
    }

    /**
      `_physics_process`: nothing while not processing; otherwise the node
      is visible exactly while `is_active` holds, and when it does every
      joint with a node is posed as `HandPoses` says.
     */
    method PhysicsProcess() returns (poses: seq<JointPose>)
      requires Valid()
      modifies this`visible
      ensures Valid()
      ensures !Processing(api, wrapper) ==> visible == old(visible) && poses == []
      ensures Processing(api, wrapper) ==> visible == IsActive()
      ensures poses == if IsActive() then HandPoses(joints) else []
    {
      poses := [];
      if api == null || wrapper == null {
        return;
      } else if !api.initialised {
        return;
      }
      var tracker := wrapper.handTrackers[hand];
      if tracker.isInitialised && tracker.locationsActive {
        var i := 0;
        while i < XR_HAND_JOINT_COUNT_EXT
          invariant 0 <= i <= XR_HAND_JOINT_COUNT_EXT
          invariant poses == HandPoses(joints[..i])
        {
          assert joints[..i + 1][..i] == joints[..i];
          if joints[i] {
            var r := if PARENTS[i] == -1 then ReferenceFrame else JointInverse(PARENTS[i]);
            poses := poses + [JointPose(i, r)];
          }
          i := i + 1;
        }
        assert joints[..i] == joints;
        visible := true;
      } else {
        visible := false;
      }
    }
  }

  // ---------------------------------------------------------------------
  // OpenXRSkeleton

  /** The first joint whose bone is `bone`, as the search of `_physics_process` finds it. */
  function JointOfBone(bones: seq<int>, bone: int): (j: Option<nat>)
    ensures j.Some? ==> SeqOps.IsFirstIndex(bones, bone, j.value)
    ensures j.None? <==> bone !in bones
  {
    if bones == [] then None
    else if bones[0] == bone then Some(0)
    else
      var rest := JointOfBone(bones[1..], bone);
      assert bones == [bones[0]] + bones[1..];
      if rest.None? then None else Some(rest.value + 1)
  }

  /** The search loop: the first joint `b` with `bones[b] == parent`, stopping once found. */
  method FindParentJoint(bones: seq<int>, parent: int) returns (found: bool, b: int)
    ensures found <==> JointOfBone(bones, parent).Some?
    ensures found ==> b == JointOfBone(bones, parent).value
  {
    found := false;
    b := 0;
    var k := 0;
    while k < |bones| && !found
      invariant 0 <= k <= |bones|
      invariant !found ==> forall m :: 0 <= m < k ==> bones[m] != parent
      invariant found ==> SeqOps.IsFirstIndex(bones, parent, b)
    {
      if bones[k] == parent {
        b := k;
        found := true;
      }
      k := k + 1;
    }
    JointOfBoneIs(bones, parent, found, b);
  }

  lemma JointOfBoneIs(bones: seq<int>, bone: int, found: bool, b: int)
    requires found ==> SeqOps.IsFirstIndex(bones, bone, b)
    requires !found ==> bone !in bones
    ensures found <==> JointOfBone(bones, bone).Some?
    ensures found ==> b == JointOfBone(bones, bone).value
  {
  }

  /**
    What the bone of a joint is posed relative to: a root bone relative to
    the palm; any other bone relative to the first joint whose bone is its
    parent bone, and left in tracking space when no joint has that bone.
   */
  function BoneReference(bones: seq<int>, skeleton: SkeletonBones, bone: int): (r: Reference)
    ensures BoneParent(skeleton, bone) == -1 ==> r == JointInverse(XR_HAND_JOINT_PALM_EXT)
    ensures BoneParent(skeleton, bone) != -1 && BoneParent(skeleton, bone) in bones ==>
              r.JointInverse? && SeqOps.IsFirstIndex(bones, BoneParent(skeleton, bone), r.joint)
    ensures BoneParent(skeleton, bone) != -1 && BoneParent(skeleton, bone) !in bones ==> r == TrackingSpace
  {
    var parent := BoneParent(skeleton, bone);
    if parent == -1 then JointInverse(XR_HAND_JOINT_PALM_EXT)
    else
      match JointOfBone(bones, parent)
      case Some(b) => JointInverse(b)
      case None => TrackingSpace
  }

  /** The bone poses of the first `n` joints: every joint that found a bone, in joint order. */
  function SkeletonPoses(bones: seq<int>, skeleton: SkeletonBones, n: nat): (poses: seq<BonePose>)
    requires n <= |bones|
    ensures forall p :: p in poses <==>
              0 <= p.joint < n && bones[p.joint] != -1 && p.bone == bones[p.joint]
              && p.relativeTo == BoneReference(bones, skeleton, bones[p.joint])
  {
    if n == 0 then []
    else
      var i := n - 1;
      SkeletonPoses(bones, skeleton, i)
        + (if bones[i] != -1 then [BonePose(bones[i], i, BoneReference(bones, skeleton, bones[i]))] else [])
  }

  class OpenXRSkeleton {
    const api: OpenXRApiCpp.OpenXRApi?
    const wrapper: HandTrackingWrapper.HandTrackingExtensionWrapper?
    var hand: int
    var motionRange: int
    /** `bones[i]`: the bone that follows joint `i`, or -1. */
    var bones: seq<int>
    var visible: bool

    ghost predicate Valid()
      reads this, wrapper
    {
      (hand == 0 || hand == 1) && |bones| == XR_HAND_JOINT_COUNT_EXT && (wrapper != null ==> wrapper.Valid())
    }

    /** The constructor: the left hand, unobstructed, every bone id -1. */
    constructor (api: OpenXRApiCpp.OpenXRApi?, wrapper: HandTrackingWrapper.HandTrackingExtensionWrapper?)
      requires wrapper != null ==> wrapper.Valid()
      ensures Valid() && this.api == api && this.wrapper == wrapper
      ensures hand == 0 && motionRange == 0 && visible
      ensures bones == seq(XR_HAND_JOINT_COUNT_EXT, _ => -1)
    {
      this.api := api;
      this.wrapper := wrapper;
      hand := 0;
      motionRange := 0;
      bones := seq(XR_HAND_JOINT_COUNT_EXT, _ => -1);
      visible := true;
    }

    /** `set_hand`: 1 is the right hand and every other value the left. */
    method SetHand(p: int)
      requires Valid()
      modifies this`hand
      ensures Valid() && hand == ClampHand(p)
    {
      hand := if p == 1 then 1 else 0;
    }

    /** `_set_motion_range`: hands the mapped range to the wrapper for this hand; without a wrapper nothing happens. */
    method ApplyMotionRange()
      requires Valid()
      modifies if wrapper != null then {wrapper.handTrackers} else {}
      ensures Valid()
      ensures wrapper != null ==>
                wrapper.handTrackers[..] == old(wrapper.handTrackers[..])[hand := old(wrapper.handTrackers[hand]).(motionRange := XrMotionRange(motionRange))]
    {
      if wrapper == null {
        return;
      }
      var xrMotionRange := match motionRange
        case 0 => XR_HAND_JOINTS_MOTION_RANGE_UNOBSTRUCTED_EXT
        case 1 => XR_HAND_JOINTS_MOTION_RANGE_CONFORMING_TO_CONTROLLER_EXT
        case _ => XR_HAND_JOINTS_MOTION_RANGE_CONFORMING_TO_CONTROLLER_EXT;
      wrapper.SetMotionRange(hand, xrMotionRange);
    }

    /** `set_motion_range`: stored, then applied. */
    method SetMotionRange(p: int)
      requires Valid()
      modifies this`motionRange, if wrapper != null then {wrapper.handTrackers} else {}
      ensures Valid() && motionRange == p
      ensures wrapper != null ==>
                wrapper.handTrackers[..] == old(wrapper.handTrackers[..])[hand := old(wrapper.handTrackers[hand]).(motionRange := XrMotionRange(p))]
    {
      motionRange := p;
      ApplyMotionRange();
    }

    /** `_ready`: joint `i` follows the first bone named after it with this hand's suffix; then the motion range is applied. */
    method Ready(skeleton: SkeletonBones)
      requires Valid()
      modifies this`bones, if wrapper != null then {wrapper.handTrackers} else {}
      ensures Valid()
      ensures forall i :: 0 <= i < XR_HAND_JOINT_COUNT_EXT ==> bones[i] == FindBone(skeleton.names, SuffixedBoneName(i, hand))
    {
      var i := 0;
      while i < XR_HAND_JOINT_COUNT_EXT
        invariant 0 <= i <= XR_HAND_JOINT_COUNT_EXT && |bones| == XR_HAND_JOINT_COUNT_EXT
        invariant forall k :: 0 <= k < i ==> bones[k] == FindBone(skeleton.names, SuffixedBoneName(k, hand))
      {
        var boneName := if hand == 0 then BONE_BASE_NAMES[i] + "_L" else BONE_BASE_NAMES[i] + "_R";
        bones := bones[i := FindBone(skeleton.names, boneName)];
        i := i + 1;
      }
      ApplyMotionRange();
    }

    predicate IsTracked()
      requires Valid()
      reads this, api, wrapper, if wrapper != null then {wrapper.handTrackers} else {}
    {
      Processing(api, wrapper) && TrackerActive(wrapper, hand)
    }

    /**
      `_physics_process`: nothing while not processing; otherwise the
      skeleton is visible exactly while its hand is tracked, and then every
      joint with a bone poses that bone as `SkeletonPoses` says.
     */
    method PhysicsProcess(skeleton: SkeletonBones) returns (poses: seq<BonePose>)
      requires Valid()
      modifies this`visible
      ensures Valid()
      ensures !Processing(api, wrapper) ==> visible == old(visible) && poses == []
      ensures Processing(api, wrapper) ==> visible == IsTracked()
      ensures poses == if IsTracked() then SkeletonPoses(bones, skeleton, XR_HAND_JOINT_COUNT_EXT) else []
    {
      poses := [];
      if api == null || wrapper == null {
        return;
      } else if !api.initialised {
        return;
      }
      var tracker := wrapper.handTrackers[hand];
      if tracker.isInitialised && tracker.locationsActive {
        var i := 0;
        while i < XR_HAND_JOINT_COUNT_EXT
          invariant 0 <= i <= XR_HAND_JOINT_COUNT_EXT
          invariant poses == SkeletonPoses(bones, skeleton, i)
        {
          if bones[i] != -1 {
            var bone := bones[i];
            var parent := BoneParent(skeleton, bone);
            var r := TrackingSpace;
            if parent == -1 {
              r := JointInverse(XR_HAND_JOINT_PALM_EXT);
            } else {
              var found, b := FindParentJoint(bones, parent);
              if found {
                r := JointInverse(b);
              }
            }
            poses := poses + [BonePose(bone, i, r)];
          }
          i := i + 1;
        }
        visible := true;
      } else {
        visible := false;
      }
    }
  }

  // ---------------------------------------------------------------------
  // OpenXRPose

  class OpenXRPose {
    const api: OpenXRApiCpp.OpenXRApi?
    const wrapper: HandTrackingWrapper.HandTrackingExtensionWrapper?
    var invisibleIfInactive: bool
    var action: string
    var path: string
    var failCache: bool
    var cachedAction: Option<ActionRef>
    var cachedPath: int
    var visible: bool

    ghost predicate Valid()
      reads this, wrapper
    {
      wrapper != null ==> wrapper.Valid()
    }

    function Lookup(): Cache
      reads this
    {
      Cache(failCache, cachedAction, cachedPath)
    }

    /** The constructor: the palm of the left hand, hidden while inactive, nothing cached. */
    constructor (api: OpenXRApiCpp.OpenXRApi?, wrapper: HandTrackingWrapper.HandTrackingExtensionWrapper?)
      requires wrapper != null ==> wrapper.Valid()
      ensures Valid() && this.api == api && this.wrapper == wrapper
      ensures invisibleIfInactive && action == DEFAULT_ACTION && path == LEFT_HAND_PATH && visible
      ensures Lookup() == EMPTY_CACHE
    {
      this.api := api;
      this.wrapper := wrapper;
      invisibleIfInactive := true;
      action := DEFAULT_ACTION;
      cachedAction := None;
      path := LEFT_HAND_PATH;
      cachedPath := XR_NULL_PATH;
      failCache := false;
      visible := true;
    }

    /** `set_invisible_if_inactive`. */
    method SetInvisibleIfInactive(p: bool)
      modifies this`invisibleIfInactive
      ensures invisibleIfInactive == p
    {
      invisibleIfInactive := p;
    }

    /** `set_action`: the cached action is dropped and lookups may be tried again; the cached path stays. */
    method SetAction(p: string)
      modifies this`action, this`cachedAction, this`failCache
      ensures action == p && Lookup() == old(Lookup()).(failCache := false, cachedAction := None)
    {
      action := p;
      cachedAction := None;
      failCache := false;
    }

    /** `set_path`: the cached path is dropped and lookups may be tried again; the cached action stays. */
    method SetPath(p: string)
      modifies this`path, this`cachedPath, this`failCache
      ensures path == p && Lookup() == old(Lookup()).(failCache := false, cachedPath := XR_NULL_PATH)
    {
      path := p;
      cachedPath := XR_NULL_PATH;
      failCache := false;
    }

    /**
      `check_action_and_path`. `hasActionSets` and `actions` stand for the
      OpenXR object's action sets, `pathResult` and `pathValue` for what
      `xrStringToPath` answers.
     */
    method CheckActionAndPath(hasActionSets: bool, actions: map<string, set<string>>, pathResult: int, pathValue: int)
      returns (ok: bool)
      modifies this`failCache, this`cachedAction, this`cachedPath
      ensures (ok, Lookup()) == PoseLookup.CheckActionAndPath(old(Lookup()), hasActionSets, action, actions, pathResult, pathValue)
    {
      if !hasActionSets {
        return false;
      }
      if failCache {
        return false;
      }
      if cachedAction.None? {
        var split := Split(action, '/');
        if |split| != 2 {
          failCache := true;
          return false;
        }
        if split[0] !in actions {
          failCache := true;
          return false;
        }
        if split[1] !in actions[split[0]] {
          failCache := true;
          return false;
        }
        cachedAction := Some(ActionRef(split[0], split[1]));
      }
      if cachedPath == XR_NULL_PATH {
        if !OpenXRCommon.XrResult(pathResult) {
          failCache := true;
          return false;
        }
        cachedPath := pathValue;
      }
      return true;
    }

    /** Whether the palm this node follows by default is tracked: the left or right hand's, or none for another path. */
    predicate PalmActive()
      requires Valid() && wrapper != null
      reads this, wrapper, wrapper.handTrackers
    {
      if path == LEFT_HAND_PATH then TrackerActive(wrapper, 0)
      else if path == RIGHT_HAND_PATH then TrackerActive(wrapper, 1)
      else false
    }

    /**
      `is_active`: false while not processing. With the default action it
      is whether the palm's hand is tracked, and no lookup is made;
      otherwise it is the lookup's answer and, when that succeeds, whether
      the action's pose is active (`poseActive`).
     */
    method IsActive(hasActionSets: bool, actions: map<string, set<string>>, pathResult: int, pathValue: int, poseActive: bool)
      returns (active: bool)
      requires Valid()
      modifies this`failCache, this`cachedAction, this`cachedPath
      ensures !Processing(api, wrapper) ==> !active && Lookup() == old(Lookup())
      ensures Processing(api, wrapper) && action == DEFAULT_ACTION ==> active == PalmActive() && Lookup() == old(Lookup())
      ensures Processing(api, wrapper) && action != DEFAULT_ACTION ==>
                var r := PoseLookup.CheckActionAndPath(old(Lookup()), hasActionSets, action, actions, pathResult, pathValue);
                active == (r.0 && poseActive) && Lookup() == r.1
    {
      if api == null || wrapper == null {
        return false;
      } else if !api.initialised {
        return false;
      }
      if action == DEFAULT_ACTION {
        if path == LEFT_HAND_PATH {
          var tracker := wrapper.handTrackers[0];
          return tracker.isInitialised && tracker.locationsActive;
        } else if path == RIGHT_HAND_PATH {
          var tracker := wrapper.handTrackers[1];
          return tracker.isInitialised && tracker.locationsActive;
        }
      } else {
        var ok := CheckActionAndPath(hasActionSets, actions, pathResult, pathValue);
        if ok {
          return poseActive;
        }
      }
      return false;
    }

    /**
      `_physics_process`: nothing while not processing. Otherwise, when
      hidden while inactive, visibility follows `is_active`; then the node
      takes the palm of the default action's hand, or else the cached
      action's pose once the lookup succeeds. The lookup is made at most
      once per frame in effect: the second check of the frame repeats the
      first.
     */
    method PhysicsProcess(hasActionSets: bool, actions: map<string, set<string>>, pathResult: int, pathValue: int, poseActive: bool)
      returns (source: PoseSource)
      requires Valid()
      modifies this`failCache, this`cachedAction, this`cachedPath, this`visible
      ensures !Processing(api, wrapper) ==> source == NoPose && visible == old(visible) && Lookup() == old(Lookup())
      ensures Processing(api, wrapper) && action == DEFAULT_ACTION ==>
                Lookup() == old(Lookup())
                && visible == (if invisibleIfInactive then PalmActive() else old(visible))
                && source == (if path == LEFT_HAND_PATH then PalmOf(0) else if path == RIGHT_HAND_PATH then PalmOf(1) else NoPose)
      ensures Processing(api, wrapper) && action != DEFAULT_ACTION ==>
                var r := PoseLookup.CheckActionAndPath(old(Lookup()), hasActionSets, action, actions, pathResult, pathValue);
                Lookup() == r.1
                && visible == (if invisibleIfInactive then r.0 && poseActive else old(visible))
                && source == (if r.0 then ActionPose(r.1.cachedAction.value, r.1.cachedPath) else NoPose)
    {
      source := NoPose;
      if api == null || wrapper == null {
        return;
      } else if !api.initialised {
        return;
      }
      ghost var before := Lookup();
      if invisibleIfInactive {
        visible := IsActive(hasActionSets, actions, pathResult, pathValue, poseActive);
      }
      if action == DEFAULT_ACTION {
        if path == LEFT_HAND_PATH {
          source := PalmOf(0);
        } else if path == RIGHT_HAND_PATH {
          source := PalmOf(1);
        }
      } else {
        CheckActionAndPathIdempotent(before, hasActionSets, action, actions, pathResult, pathValue);
        var ok := CheckActionAndPath(hasActionSets, actions, pathResult, pathValue);
        if ok {
          source := ActionPose(cachedAction.value, cachedPath);
        }
      }
    }
  }
}
