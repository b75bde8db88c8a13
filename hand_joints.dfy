/**
  The joint layout that the hand nodes of `src/gdclasses/` and
  `src/openxr/` share: the 26 joints of `XR_EXT_hand_tracking`, the
  parent of each joint, the node paths an `OpenXRHand` looks up, the bone
  names an `OpenXRSkeleton` looks up, the clamping of a hand index and the
  mapping of the `motion_range` property onto the extension's enumerants.
 */
module HandJoints {

  /** `XR_HAND_JOINT_COUNT_EXT` and `XR_HAND_JOINT_PALM_EXT`. */
  const XR_HAND_JOINT_COUNT_EXT: int := 26
  const XR_HAND_JOINT_PALM_EXT: int := 0

  const XR_HAND_JOINTS_MOTION_RANGE_UNOBSTRUCTED_EXT: int := 1
  const XR_HAND_JOINTS_MOTION_RANGE_CONFORMING_TO_CONTROLLER_EXT: int := 2

  /** The `parents` table of `_physics_process`: the palm is the root, every other joint hangs off an earlier one. */
  const PARENTS: seq<int> := [
    -1, 0,
    1, 2, 3, 4,
    1, 6, 7, 8, 9,
    1, 11, 12, 13, 14,
    1, 16, 17, 18, 19,
    1, 21, 22, 23, 24
  ]

  /** The last path segment of each joint's node; the palm is the hand node itself. */
  const JOINT_LEAVES: seq<string> := [
    ".", "Wrist",
    "ThumbMetacarpal", "ThumbProximal", "ThumbDistal", "ThumbTip",
    "IndexMetacarpal", "IndexProximal", "IndexIntermediate", "IndexDistal", "IndexTip",
    "MiddleMetacarpal", "MiddleProximal", "MiddleIntermediate", "MiddleDistal", "MiddleTip",
    "RingMetacarpal", "RingProximal", "RingIntermediate", "RingDistal", "RingTip",
    "LittleMetacarpal", "LittleProximal", "LittleIntermediate", "LittleDistal", "LittleTip"
  ]

  /**
    The `node_names` table of `OpenXRHand::_ready`, each path written as
    its slash-separated segments; `NodeName` joins them back.
   */
  const NODE_PATHS: seq<seq<string>> := [
    ["."],
    ["Wrist"],
    ["Wrist", "ThumbMetacarpal"],
    ["Wrist", "ThumbMetacarpal", "ThumbProximal"],
    ["Wrist", "ThumbMetacarpal", "ThumbProximal", "ThumbDistal"],
    ["Wrist", "ThumbMetacarpal", "ThumbProximal", "ThumbDistal", "ThumbTip"],
    ["Wrist", "IndexMetacarpal"],
    ["Wrist", "IndexMetacarpal", "IndexProximal"],
    ["Wrist", "IndexMetacarpal", "IndexProximal", "IndexIntermediate"],
    ["Wrist", "IndexMetacarpal", "IndexProximal", "IndexIntermediate", "IndexDistal"],
    ["Wrist", "IndexMetacarpal", "IndexProximal", "IndexIntermediate", "IndexDistal", "IndexTip"],
    ["Wrist", "MiddleMetacarpal"],
    ["Wrist", "MiddleMetacarpal", "MiddleProximal"],
    ["Wrist", "MiddleMetacarpal", "MiddleProximal", "MiddleIntermediate"],
    ["Wrist", "MiddleMetacarpal", "MiddleProximal", "MiddleIntermediate", "MiddleDistal"],
    ["Wrist", "MiddleMetacarpal", "MiddleProximal", "MiddleIntermediate", "MiddleDistal", "MiddleTip"],
    ["Wrist", "RingMetacarpal"],
    ["Wrist", "RingMetacarpal", "RingProximal"],
    ["Wrist", "RingMetacarpal", "RingProximal", "RingIntermediate"],
    ["Wrist", "RingMetacarpal", "RingProximal", "RingIntermediate", "RingDistal"],
    ["Wrist", "RingMetacarpal", "RingProximal", "RingIntermediate", "RingDistal", "RingTip"],
    ["Wrist", "LittleMetacarpal"],
    ["Wrist", "LittleMetacarpal", "LittleProximal"],
    ["Wrist", "LittleMetacarpal", "LittleProximal", "LittleIntermediate"],
    ["Wrist", "LittleMetacarpal", "LittleProximal", "LittleIntermediate", "LittleDistal"],
    ["Wrist", "LittleMetacarpal", "LittleProximal", "LittleIntermediate", "LittleDistal", "LittleTip"]
  ]

  /** The `bone_names` table of the `src/gdclasses/` skeleton, before the hand suffix. */
  const BONE_BASE_NAMES: seq<string> := [
    "Palm", "Wrist",
    "Thumb_Metacarpal", "Thumb_Proximal", "Thumb_Distal", "Thumb_Tip",
    "Index_Metacarpal", "Index_Proximal", "Index_Intermediate", "Index_Distal", "Index_Tip",
    "Middle_Metacarpal", "Middle_Proximal", "Middle_Intermediate", "Middle_Distal", "Middle_Tip",
    "Ring_Metacarpal", "Ring_Proximal", "Ring_Intermediate", "Ring_Distal", "Ring_Tip",
    "Little_Metacarpal", "Little_Proximal", "Little_Intermediate", "Little_Distal", "Little_Tip"
  ]

  /** A parent table of a tree whose root is joint 0 and whose every other joint hangs off an earlier one. */
  predicate IsTree(parents: seq<int>)
  {
    |parents| > 0 && parents[0] == -1 && forall i :: 1 <= i < |parents| ==> 0 <= parents[i] < i
  }

  lemma ParentsFormTree()
    ensures |PARENTS| == XR_HAND_JOINT_COUNT_EXT && IsTree(PARENTS)
  {
  }

  /** Only the wrist hangs off the palm. */
  lemma OnlyWristOnPalm()
    ensures |PARENTS| == XR_HAND_JOINT_COUNT_EXT && PARENTS[1] == XR_HAND_JOINT_PALM_EXT
    ensures forall i :: 2 <= i < XR_HAND_JOINT_COUNT_EXT ==> PARENTS[i] != XR_HAND_JOINT_PALM_EXT
  {
  }

  /** The node path of joint `i` built from the tree: the palm is ".", the wrist a plain name, every deeper joint its parent's path, a slash and its own name. */
  function PathOf(parents: seq<int>, leaves: seq<string>, i: int): (path: string)
    requires IsTree(parents) && |leaves| == |parents| && 0 <= i < |parents|
    ensures i > 0 ==> |path| >= |leaves[i]|
    decreases i
  {
    if i == 0 then leaves[0]
    else if parents[i] == 0 then leaves[i]
    else PathOf(parents, leaves, parents[i]) + "/" + leaves[i]
  }

  /** `segments` joined with slashes. */
  function JoinPath(segments: seq<string>): (path: string)
    ensures |segments| == 1 ==> path == segments[0]
  {
    if segments == [] then ""
    else if |segments| == 1 then segments[0]
    else JoinPath(segments[..|segments| - 1]) + "/" + segments[|segments| - 1]
  }

  /** The node path that `_ready` looks up for joint `i`. */
  function NodeName(i: int): string
    requires 0 <= i < |NODE_PATHS|
  {
    JoinPath(NODE_PATHS[i])
  }

  /** Row by row, the node table extends the path of each joint's parent by the joint's own name. */
  lemma NodePathsExtendParents()
    ensures |NODE_PATHS| == XR_HAND_JOINT_COUNT_EXT
    ensures NODE_PATHS[0] == ["."] && NODE_PATHS[1] == [JOINT_LEAVES[1]]
    ensures forall i :: 2 <= i < XR_HAND_JOINT_COUNT_EXT ==> NODE_PATHS[i] == NODE_PATHS[PARENTS[i]] + [JOINT_LEAVES[i]]
  {
    ThumbRowsExtendParents();
    IndexRowsExtendParents();
    MiddleRowsExtendParents();
    RingRowsExtendParents();
    LittleRowsExtendParents();
  }

  lemma ThumbRowsExtendParents()
    ensures forall i :: 2 <= i < 6 ==> NODE_PATHS[i] == NODE_PATHS[PARENTS[i]] + [JOINT_LEAVES[i]]
  {
  }

  lemma IndexRowsExtendParents()
    ensures forall i :: 6 <= i < 11 ==> NODE_PATHS[i] == NODE_PATHS[PARENTS[i]] + [JOINT_LEAVES[i]]
  {
  }

  lemma MiddleRowsExtendParents()
    ensures forall i :: 11 <= i < 16 ==> NODE_PATHS[i] == NODE_PATHS[PARENTS[i]] + [JOINT_LEAVES[i]]
  {
  }

  lemma RingRowsExtendParents()
    ensures forall i :: 16 <= i < 21 ==> NODE_PATHS[i] == NODE_PATHS[PARENTS[i]] + [JOINT_LEAVES[i]]
  {
  }

  lemma LittleRowsExtendParents()
    ensures forall i :: 21 <= i < 26 ==> NODE_PATHS[i] == NODE_PATHS[PARENTS[i]] + [JOINT_LEAVES[i]]
  {
  }

  /** Joining one more segment appends a slash and that segment. */
  lemma JoinPathSnoc(segments: seq<string>, x: string)
    requires segments != []
    ensures JoinPath(segments + [x]) == JoinPath(segments) + "/" + x
  {
    assert (segments + [x])[..|segments|] == segments;
  }

  /** Every joint past the wrist is looked up at its parent's path, a slash and its own name. */
  lemma NodeNameStep(i: int)
    requires 2 <= i < XR_HAND_JOINT_COUNT_EXT
    ensures 0 < PARENTS[i] < i
    ensures NodeName(i) == NodeName(PARENTS[i]) + "/" + JOINT_LEAVES[i]
  {
    ParentsFormTree();
    OnlyWristOnPalm();
    NodePathsExtendParents();
    JoinPathSnoc(NODE_PATHS[PARENTS[i]], JOINT_LEAVES[i]);
  }

  /**
    For any tree whose path table starts with the root's and the first
    child's own names and extends each parent's row by the joint's name,
    joining a row gives the joint's path in the tree.
   */
  lemma {:induction false} JoinedRowsFollowTree(parents: seq<int>, leaves: seq<string>, rows: seq<seq<string>>)
    requires IsTree(parents) && |parents| >= 2 && |leaves| == |parents| && |rows| == |parents|
    requires rows[0] == [leaves[0]] && parents[1] == 0 && rows[1] == [leaves[1]]
    requires forall i :: 2 <= i < |parents| ==> parents[i] != 0 && rows[i] == rows[parents[i]] + [leaves[i]]
    ensures forall i :: 0 <= i < |parents| ==> JoinPath(rows[i]) == PathOf(parents, leaves, i)
  {
    var i := 0;
    while i < |parents|
      invariant 0 <= i <= |parents|
      invariant forall j :: 0 <= j < i ==> JoinPath(rows[j]) == PathOf(parents, leaves, j)
    {
      if i >= 2 {
        var p := parents[i];
        assert rows[p] != [] by {
          if p >= 2 {
            assert rows[p] == rows[parents[p]] + [leaves[p]];
          }
        }
        JoinPathSnoc(rows[p], leaves[i]);
      }
      i := i + 1;
    }
  }

  /**
    The node paths are the paths of the joint tree: the palm is the hand
    node itself, the wrist a child of it, and every deeper joint's path is
    its parent's path, a slash and its own name.
   */
  lemma NodeNamesFollowParents()
    ensures |NODE_PATHS| == XR_HAND_JOINT_COUNT_EXT
    ensures forall i :: 0 <= i < XR_HAND_JOINT_COUNT_EXT ==> NodeName(i) == PathOf(PARENTS, JOINT_LEAVES, i)
  {
    ParentsFormTree();
    OnlyWristOnPalm();
    NodePathsExtendParents();
    JoinedRowsFollowTree(PARENTS, JOINT_LEAVES, NODE_PATHS);
  }

  /** `set_hand`: 1 selects the right hand, every other value the left. */
  function ClampHand(p: int): (hand: int)
    ensures hand == 0 || hand == 1
    ensures hand == 1 <==> p == 1
  {
    if p == 1 then 1 else 0
  }

  /** `_set_motion_range`: 0 is unobstructed; 1, and every other value, conforms to the controller. */
  function XrMotionRange(motionRange: int): (range: int)
    ensures range == XR_HAND_JOINTS_MOTION_RANGE_UNOBSTRUCTED_EXT <==> motionRange == 0
    ensures range == XR_HAND_JOINTS_MOTION_RANGE_UNOBSTRUCTED_EXT || range == XR_HAND_JOINTS_MOTION_RANGE_CONFORMING_TO_CONTROLLER_EXT
  {
    match motionRange
    case 0 => XR_HAND_JOINTS_MOTION_RANGE_UNOBSTRUCTED_EXT
    case 1 => XR_HAND_JOINTS_MOTION_RANGE_CONFORMING_TO_CONTROLLER_EXT
    case _ => XR_HAND_JOINTS_MOTION_RANGE_CONFORMING_TO_CONTROLLER_EXT
  }

  /** The bone that joint `i` of the `src/gdclasses/` skeleton looks up: its base name with "_L" for hand 0 and "_R" otherwise. */
  function SuffixedBoneName(i: int, hand: int): (name: string)
    requires 0 <= i < XR_HAND_JOINT_COUNT_EXT
    ensures |name| == |BONE_BASE_NAMES[i]| + 2
    ensures name[..|BONE_BASE_NAMES[i]|] == BONE_BASE_NAMES[i]
    ensures name[|BONE_BASE_NAMES[i]|..] == if hand == 0 then "_L" else "_R"
  {
    BONE_BASE_NAMES[i] + (if hand == 0 then "_L" else "_R")
  }

  /** Godot's `Skeleton::find_bone`: the index of the first bone with the name, or -1. */
  function FindBone(boneNames: seq<string>, name: string): (bone: int)
    ensures -1 <= bone < |boneNames|
    ensures bone == -1 <==> name !in boneNames
    ensures bone != -1 ==> boneNames[bone] == name && forall k :: 0 <= k < bone ==> boneNames[k] != name
  {
    if boneNames == [] then -1
    else if boneNames[0] == name then 0
    else
      var rest := FindBone(boneNames[1..], name);
      assert boneNames == [boneNames[0]] + boneNames[1..];
      if rest == -1 then -1 else rest + 1
  }

  /** What a pose is made relative to. */
  datatype Reference =
    | ReferenceFrame            // the server's reference frame, applied to the root
    | JointInverse(joint: int)  // the inverse of this frame's tracked transform of that joint
    | NodeInverse(joint: int)   // the inverse of the global transform of that joint's node
    | TrackingSpace             // nothing: the tracked transform as it is

  /** One `set_transform` of a joint node. */
  datatype JointPose = JointPose(joint: int, relativeTo: Reference)

  /** One `set_bone_pose`: the bone, the joint it follows and what its transform is made relative to. */
  datatype BonePose = BonePose(bone: int, joint: int, relativeTo: Reference)

  /** The bones of a Godot skeleton: their names and the parent of each (-1 for a root). */
  datatype SkeletonBones = SkeletonBones(names: seq<string>, parents: seq<int>)

  /** Godot's `Skeleton::get_bone_parent`: -1 for an index that is not a bone. */
  function BoneParent(skeleton: SkeletonBones, bone: int): (parent: int)
    ensures 0 <= bone < |skeleton.parents| ==> parent == skeleton.parents[bone]
    ensures !(0 <= bone < |skeleton.parents|) ==> parent == -1
  {
    if 0 <= bone < |skeleton.parents| then skeleton.parents[bone] else -1
  }
}
