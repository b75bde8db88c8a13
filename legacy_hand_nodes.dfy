/**
  `src/openxr/OpenXRHand.cpp`, `OpenXRSkeleton.cpp` and `OpenXRPose.cpp`:
  the older hand nodes, which read the hand trackers of the OpenXR object
  instead of a hand-tracking wrapper. `TrackerStatus` stands for those two
  trackers (each: set up and with active joint locations), which the
  OpenXR object model does not hold. The hand of `OpenXRHand` is the
  `Hands` enumeration of `src/OpenXRApi.h`.
 */
module LegacyHandNodes {
  import opened Wrappers
  import opened HandJoints
  import opened PoseLookup
  import OpenXRApiCpp

  /** `OpenXRApi::HAND_LEFT` and `HAND_RIGHT`. */
  const HAND_LEFT: int := 0
  const HAND_RIGHT: int := 1

  /** Whether the left and the right tracker are set up and report active joint locations. */
  datatype TrackerStatus = TrackerStatus(left: bool, right: bool)

  function Tracked(trackers: TrackerStatus, hand: int): bool
  {
    if hand == 1 then trackers.right else trackers.left
  }

  // ---------------------------------------------------------------------
  // OpenXRHand

  /**
    What a joint node of the older `OpenXRHand` is made relative to: the
    global transform of its parent's node when that node exists; the palm,
    and any joint whose parent has no node, stay in tracking space.
   */
  function LegacyHandReference(joints: seq<bool>, i: int): (r: Reference)
    requires |joints| == XR_HAND_JOINT_COUNT_EXT && 0 <= i < XR_HAND_JOINT_COUNT_EXT
    ensures r.NodeInverse? <==> i > 0 && joints[PARENTS[i]]
    ensures r.NodeInverse? ==> r.joint == PARENTS[i] && 0 <= r.joint < i
    ensures !r.NodeInverse? ==> r == TrackingSpace
  {
    ParentsFormTree();
    if PARENTS[i] != -1 && joints[PARENTS[i]] then NodeInverse(PARENTS[i]) else TrackingSpace
  }

  /** The poses of a tracked frame over the first `n` joints: every joint with a node, in joint order. */
  function LegacyHandPoses(joints: seq<bool>, n: nat): (poses: seq<JointPose>)
    requires |joints| == XR_HAND_JOINT_COUNT_EXT && n <= XR_HAND_JOINT_COUNT_EXT
    ensures forall p :: p in poses <==> 0 <= p.joint < n && joints[p.joint] && p.relativeTo == LegacyHandReference(joints, p.joint)
  {
    if n == 0 then []
    else
      var i := n - 1;
      LegacyHandPoses(joints, i) + (if joints[i] then [JointPose(i, LegacyHandReference(joints, i))] else [])
  }

  class OpenXRHand {
    const api: OpenXRApiCpp.OpenXRApi?
    /** `hand`, a value of the `Hands` enumeration. */
    var hand: int
    /** Whether `joints[i]` found a node. */
    var joints: seq<bool>
    var visible: bool

    ghost predicate Valid()
      reads this
    {
      (hand == HAND_LEFT || hand == HAND_RIGHT) && |joints| == XR_HAND_JOINT_COUNT_EXT
    }

    /** The constructor: the left hand, no joint nodes yet. */
    constructor (api: OpenXRApiCpp.OpenXRApi?)
      ensures Valid() && this.api == api
      ensures hand == HAND_LEFT && visible
      ensures joints == seq(XR_HAND_JOINT_COUNT_EXT, _ => false)
    {
      this.api := api;
      hand := HAND_LEFT;
      joints := seq(XR_HAND_JOINT_COUNT_EXT, _ => false);
      visible := true;
    }

    /** `get_hand`: 0 for the left hand, 1 for the right and 0 for any other value. */
    function GetHand(): (h: int)
      reads this
      ensures h == 0 || h == 1
      ensures h == 1 <==> hand == HAND_RIGHT
    {
      if hand == HAND_LEFT then 0
      else if hand == HAND_RIGHT then 1
      else 0
    }

    /** `set_hand`: 1 selects the right hand and every other value the left, so `get_hand` answers `ClampHand(p)`. */
    method SetHand(p: int)
      requires Valid()
      modifies this`hand
      ensures Valid()
      ensures hand == if p == 1 then HAND_RIGHT else HAND_LEFT
      ensures GetHand() == ClampHand(p)
    {
      if p == 1 {
        hand := HAND_RIGHT;
      } else {
        hand := HAND_LEFT;
      }
    }

    /** `_ready`: joint `i` is the node found at `NodeName(i)` among `sceneNodes`. */
    method Ready(sceneNodes: set<string>)
      requires Valid()
      modifies this`joints
      ensures Valid()
      ensures forall i :: 0 <= i < XR_HAND_JOINT_COUNT_EXT ==> joints[i] == (NodeName(i) in sceneNodes)
    {
      NodeNamesFollowParents();
      var i := 0;
      while i < XR_HAND_JOINT_COUNT_EXT
        invariant 0 <= i <= XR_HAND_JOINT_COUNT_EXT && |joints| == XR_HAND_JOINT_COUNT_EXT
        invariant forall k :: 0 <= k < i ==> joints[k] == (NodeName(k) in sceneNodes)
      {
        joints := joints[i := NodeName(i) in sceneNodes];
        i := i + 1;
      }
    }

    /**
      `_physics_process`: nothing without the OpenXR object (initialisation
      is not asked); otherwise visible exactly while the hand is tracked,
      and then every joint with a node posed as `LegacyHandPoses` says.
     */
    method PhysicsProcess(trackers: TrackerStatus) returns (poses: seq<JointPose>)
      requires Valid()
      modifies this`visible
      ensures Valid()
      ensures api == null ==> visible == old(visible) && poses == []
      ensures api != null ==> visible == Tracked(trackers, hand)
      ensures api != null && Tracked(trackers, hand) ==> poses == LegacyHandPoses(joints, XR_HAND_JOINT_COUNT_EXT)
      ensures !Tracked(trackers, hand) ==> poses == []
    {
      poses := [];
      if api == null {
        return;
      }
      var tracked := if hand == HAND_RIGHT then trackers.right else trackers.left;
      if tracked {
        ParentsFormTree();
        var i := 0;
        while i < XR_HAND_JOINT_COUNT_EXT
          invariant 0 <= i <= XR_HAND_JOINT_COUNT_EXT
          invariant poses == LegacyHandPoses(joints, i)
        {
          if joints[i] {
            var r := TrackingSpace;
            if PARENTS[i] != -1 {
              var parent := PARENTS[i];
              if joints[parent] {
                r := NodeInverse(parent);
              }
            }
            poses := poses + [JointPose(i, r)];
          }
          i := i + 1;
        }
        visible := true;
      } else {
        visible := false;
      }
    }
  }

  // ---------------------------------------------------------------------
  // OpenXRSkeleton

  /**
    What the bone of joint `i` of the older skeleton is made relative to:
    its parent joint's tracked inverse, except that a parent past the palm
    whose bone is missing has the identity as its inverse, which leaves the
    bone in tracking space.
   */
  function LegacyBoneReference(bones: seq<int>, i: int): (r: Reference)
    requires |bones| == XR_HAND_JOINT_COUNT_EXT && 1 <= i < XR_HAND_JOINT_COUNT_EXT
    ensures r == TrackingSpace <==> PARENTS[i] != XR_HAND_JOINT_PALM_EXT && bones[PARENTS[i]] == -1
    ensures r != TrackingSpace ==> r == JointInverse(PARENTS[i]) && 0 <= PARENTS[i] < i
  {
    ParentsFormTree();
    var parent := PARENTS[i];
    if parent != XR_HAND_JOINT_PALM_EXT && bones[parent] == -1 then TrackingSpace else JointInverse(parent)
  }

  /** The bone poses over the first `n` joints: every joint past the palm that found a bone, in joint order. */
  function LegacySkeletonPoses(bones: seq<int>, n: nat): (poses: seq<BonePose>)
    requires |bones| == XR_HAND_JOINT_COUNT_EXT && n <= XR_HAND_JOINT_COUNT_EXT
    ensures forall p :: p in poses <==>
              1 <= p.joint < n && bones[p.joint] != -1 && p.bone == bones[p.joint]
              && p.relativeTo == LegacyBoneReference(bones, p.joint)
  {
    if n <= 1 then []
    else
      var i := n - 1;
      var earlier := LegacySkeletonPoses(bones, i);
      var last := if bones[i] != -1 then [BonePose(bones[i], i, LegacyBoneReference(bones, i))] else [];
      assert forall p :: p in earlier + last <==> p in earlier || p in last;
      earlier + last
  }

  class OpenXRSkeleton {
    const api: OpenXRApiCpp.OpenXRApi?
    var hand: int
    /** `bones[i]`: the bone that follows joint `i`, or -1. */
    var bones: seq<int>
    var visible: bool

    ghost predicate Valid()
      reads this
    {
      (hand == 0 || hand == 1) && |bones| == XR_HAND_JOINT_COUNT_EXT
    }

    /** The constructor: the left hand, every bone id -1. */
    constructor (api: OpenXRApiCpp.OpenXRApi?)
      ensures Valid() && this.api == api
      ensures hand == 0 && visible
      ensures bones == seq(XR_HAND_JOINT_COUNT_EXT, _ => -1)
    {
      this.api := api;
      hand := 0;
      bones := seq(XR_HAND_JOINT_COUNT_EXT, _ => -1);
      visible := true;
    }

    /** `set_hand`: 1 is the right hand and every other value the left. */
    method SetHand(p: int)
      requires Valid()
      modifies this`hand
      ensures Valid() && hand == ClampHand(p)
    {
      hand := if p == 1 then 1 else 0;
    }

    /** `_ready`: joint `i` follows the first bone named after the joint itself; both hands look up the same names. */
    method Ready(skeleton: SkeletonBones)
      requires Valid()
      modifies this`bones
      ensures Valid()
      ensures forall i :: 0 <= i < XR_HAND_JOINT_COUNT_EXT ==> bones[i] == FindBone(skeleton.names, JOINT_LEAVES[i])
    {
      var i := 0;
      while i < XR_HAND_JOINT_COUNT_EXT
        invariant 0 <= i <= XR_HAND_JOINT_COUNT_EXT && |bones| == XR_HAND_JOINT_COUNT_EXT
        invariant forall k :: 0 <= k < i ==> bones[k] == FindBone(skeleton.names, JOINT_LEAVES[k])
      {
        bones := bones[i := FindBone(skeleton.names, JOINT_LEAVES[i])];
        i := i + 1;
      }
    }

    /**
      The joint loop of `_physics_process` for a tracked hand: each joint
      remembers whether its inverse is a tracked one, and each joint past
      the palm with a bone is posed against its parent's.
     */
    method PoseBones() returns (poses: seq<BonePose>)
      requires Valid()
      ensures poses == LegacySkeletonPoses(bones, XR_HAND_JOINT_COUNT_EXT)
    {
      ParentsFormTree();
      /** Whether the inverse kept for each joint is a tracked one (false: the identity of a missing bone). */
      var trackedInverse: seq<bool> := [];
      poses := [];
      var i := 0;
      while i < XR_HAND_JOINT_COUNT_EXT
        invariant 0 <= i <= XR_HAND_JOINT_COUNT_EXT && |trackedInverse| == i
        invariant forall k :: 0 <= k < i ==> trackedInverse[k] == (k == XR_HAND_JOINT_PALM_EXT || bones[k] != -1)
        invariant poses == LegacySkeletonPoses(bones, i)
      {
        if i == 0 {
          trackedInverse := trackedInverse + [true];
        } else if bones[i] == -1 {
          trackedInverse := trackedInverse + [false];
          assert LegacySkeletonPoses(bones, i + 1) == LegacySkeletonPoses(bones, i) + [];
        } else if PARENTS[i] != -1 {
          trackedInverse := trackedInverse + [true];
          var parent := PARENTS[i];
          var r := if trackedInverse[parent] then JointInverse(parent) else TrackingSpace;
          assert r == LegacyBoneReference(bones, i);
          assert LegacySkeletonPoses(bones, i + 1) == LegacySkeletonPoses(bones, i) + [BonePose(bones[i], i, r)];
          poses := poses + [BonePose(bones[i], i, r)];
        }
        i := i + 1;
      }
    }

    /**
      `_physics_process`: nothing without the OpenXR object or before it
      is initialised; otherwise visible exactly while the hand is tracked,
      and then the bones are posed as `LegacySkeletonPoses` says.
     */
    method PhysicsProcess(trackers: TrackerStatus) returns (poses: seq<BonePose>)
      requires Valid()
      modifies this`visible
      ensures Valid()
      ensures api == null || !api.initialised ==> visible == old(visible) && poses == []
      ensures api != null && api.initialised ==> visible == Tracked(trackers, hand)
      ensures api != null && api.initialised && Tracked(trackers, hand) ==> poses == LegacySkeletonPoses(bones, XR_HAND_JOINT_COUNT_EXT)
      ensures !Tracked(trackers, hand) ==> poses == []
    {
      poses := [];
      if api == null {
        return;
      } else if !api.initialised {
        return;
      }
      var tracked := if hand == 1 then trackers.right else trackers.left;
      if tracked {
        poses := PoseBones();
        visible := true;
      } else {
        visible := false;
      }
    }
  }

  // ---------------------------------------------------------------------
  // OpenXRPose

  class OpenXRPose {
    const api: OpenXRApiCpp.OpenXRApi?
    var invisibleIfInactive: bool
    var action: string
    var path: string
    var failCache: bool
    var cachedAction: Option<ActionRef>
    var cachedPath: int
    var visible: bool

    function Lookup(): Cache
      reads this
    {
      Cache(failCache, cachedAction, cachedPath)
    }

    /** The constructor: the palm of the left hand, hidden while inactive, nothing cached. */
    constructor (api: OpenXRApiCpp.OpenXRApi?)
      ensures this.api == api
      ensures invisibleIfInactive && action == DEFAULT_ACTION && path == LEFT_HAND_PATH && visible
      ensures Lookup() == EMPTY_CACHE
    {
      this.api := api;
      invisibleIfInactive := true;
      action := DEFAULT_ACTION;
      cachedAction := None;
      path := LEFT_HAND_PATH;
      cachedPath := XR_NULL_PATH;
      failCache := false;
      visible := true;
    }

    /** `set_invisible_if_inactive`. */
    method SetInvisibleIfInactive(p: bool)
      modifies this`invisibleIfInactive
      ensures invisibleIfInactive == p
    {
      invisibleIfInactive := p;
    }

    /** `set_action`: the cached action is dropped and lookups may be tried again; the cached path stays. */
    method SetAction(p: string)
      modifies this`action, this`cachedAction, this`failCache
      ensures action == p && Lookup() == old(Lookup()).(failCache := false, cachedAction := None)
    {
      action := p;
      cachedAction := None;
      failCache := false;
    }

    /** `set_path`: the cached path is dropped and lookups may be tried again; the cached action stays. */
    method SetPath(p: string)
      modifies this`path, this`cachedPath, this`failCache
      ensures path == p && Lookup() == old(Lookup()).(failCache := false, cachedPath := XR_NULL_PATH)
    {
      path := p;
      cachedPath := XR_NULL_PATH;
      failCache := false;
    }

    /** `check_action_and_path`, with the OpenXR object's action sets and the answer of `xrStringToPath` passed in. */
    method CheckActionAndPath(hasActionSets: bool, actions: map<string, set<string>>, pathResult: int, pathValue: int)
      returns (ok: bool)
      modifies this`failCache, this`cachedAction, this`cachedPath
      ensures (ok, Lookup()) == PoseLookup.CheckActionAndPath(old(Lookup()), hasActionSets, action, actions, pathResult, pathValue)
    {
      if !hasActionSets {
        return false;
      }
      if failCache {
        return false;
      }
      if cachedAction.None? {
        var split := Split(action, '/');
        if |split| != 2 {
          failCache := true;
          return false;
        }
        if split[0] !in actions {
          failCache := true;
          return false;
        }
        if split[1] !in actions[split[0]] {
          failCache := true;
          return false;
        }
        cachedAction := Some(ActionRef(split[0], split[1]));
      }
      if cachedPath == XR_NULL_PATH {
        if !OpenXRCommon.XrResult(pathResult) {
          failCache := true;
          return false;
        }
        cachedPath := pathValue;
      }
      return true;
    }

    /** Whether the palm this node follows by default is tracked: the left or right hand's, or none for another path. */
    function PalmActive(trackers: TrackerStatus): bool
      reads this
    {
      if path == LEFT_HAND_PATH then trackers.left
      else if path == RIGHT_HAND_PATH then trackers.right
      else false
    }

    /**
      `is_active`: false without the OpenXR object or before it is
      initialised. With the default action it is whether the palm's hand
      is tracked; otherwise the lookup's answer and, when that succeeds,
      whether the action's pose is active (`poseActive`).
     */
    method IsActive(trackers: TrackerStatus, hasActionSets: bool, actions: map<string, set<string>>,
                    pathResult: int, pathValue: int, poseActive: bool)
      returns (active: bool)
      modifies this`failCache, this`cachedAction, this`cachedPath
      ensures api == null || !api.initialised ==> !active && Lookup() == old(Lookup())
      ensures api != null && api.initialised && action == DEFAULT_ACTION ==> active == PalmActive(trackers) && Lookup() == old(Lookup())
      ensures api != null && api.initialised && action != DEFAULT_ACTION ==>
                var r := PoseLookup.CheckActionAndPath(old(Lookup()), hasActionSets, action, actions, pathResult, pathValue);
                active == (r.0 && poseActive) && Lookup() == r.1
    {
      if api == null {
        return false;
      } else if !api.initialised {
        return false;
      }
      if action == DEFAULT_ACTION {
        if path == LEFT_HAND_PATH {
          return trackers.left;
        } else if path == RIGHT_HAND_PATH {
          return trackers.right;
        }
      } else {
        var ok := CheckActionAndPath(hasActionSets, actions, pathResult, pathValue);
        if ok {
          return poseActive;
        }
      }
      return false;
    }

    /**
      `_physics_process`: nothing without the OpenXR object or before it
      is initialised. Otherwise, when hidden while inactive, visibility
      follows `is_active`; then the node takes the palm of the default
      action's hand, or else the cached action's pose once the lookup
      succeeds.
     */
    method PhysicsProcess(trackers: TrackerStatus, hasActionSets: bool, actions: map<string, set<string>>,
                          pathResult: int, pathValue: int, poseActive: bool)
      returns (source: PoseSource)
      modifies this`failCache, this`cachedAction, this`cachedPath, this`visible
      ensures api == null || !api.initialised ==> source == NoPose && visible == old(visible) && Lookup() == old(Lookup())
      ensures api != null && api.initialised && action == DEFAULT_ACTION ==>
                Lookup() == old(Lookup())
                && visible == (if invisibleIfInactive then PalmActive(trackers) else old(visible))
                && source == (if path == LEFT_HAND_PATH then PalmOf(0) else if path == RIGHT_HAND_PATH then PalmOf(1) else NoPose)
      ensures api != null && api.initialised && action != DEFAULT_ACTION ==>
                var r := PoseLookup.CheckActionAndPath(old(Lookup()), hasActionSets, action, actions, pathResult, pathValue);
                Lookup() == r.1
                && visible == (if invisibleIfInactive then r.0 && poseActive else old(visible))
                && source == (if r.0 then ActionPose(r.1.cachedAction.value, r.1.cachedPath) else NoPose)
    {
      source := NoPose;
      if api == null {
        return;
      } else if !api.initialised {
        return;
      }
      ghost var before := Lookup();
      if invisibleIfInactive {
        visible := IsActive(trackers, hasActionSets, actions, pathResult, pathValue, poseActive);
      }
      if action == DEFAULT_ACTION {
        if path == LEFT_HAND_PATH {
          source := PalmOf(0);
        } else if path == RIGHT_HAND_PATH {
          source := PalmOf(1);
        }
      } else {
        CheckActionAndPathIdempotent(before, hasActionSets, action, actions, pathResult, pathValue);
        var ok := CheckActionAndPath(hasActionSets, actions, pathResult, pathValue);
        if ok {
          source := ActionPose(cachedAction.value, cachedPath);
        }
      }
    }
  }
}
