/**
  `src/openxr/OpenXRApi.cpp` and `OpenXRApi.h`: the plugin's OpenXR
  session object. Modelled here are the reference-counted singleton, the
  enumeration checks, the application name and swapchain format chosen at
  start-up, the configuration setters that are locked once the object is
  initialised, the hand-tracker accessors, the extension-wrapper and
  composition-layer registries, the action-type names of the action-set
  JSON, the default-action table and the per-frame `update_actions`
  guards and controller-slot bookkeeping. Every OpenXR or Godot call is
  replaced by its result, passed in as a parameter.
 */
module OpenXRApiCpp {
  import opened Wrappers
  import opened Bytes
  import opened OpenXRCommon

  // ---------------------------------------------------------------------
  // Enumerant values of the OpenXR headers

  const XR_MAX_APPLICATION_NAME_SIZE: int := 128

  const XR_FORM_FACTOR_HEAD_MOUNTED_DISPLAY: int := 1
  const XR_FORM_FACTOR_HANDHELD_DISPLAY: int := 2

  const XR_HAND_JOINTS_MOTION_RANGE_UNOBSTRUCTED_EXT: int := 1
  const XR_HAND_JOINTS_MOTION_RANGE_CONFORMING_TO_CONTROLLER_EXT: int := 2

  const XR_SESSION_STATE_FOCUSED: int := 5

  const XR_ACTION_TYPE_BOOLEAN_INPUT: int := 1
  const XR_ACTION_TYPE_FLOAT_INPUT: int := 2
  const XR_ACTION_TYPE_VECTOR2F_INPUT: int := 3
  const XR_ACTION_TYPE_POSE_INPUT: int := 4
  const XR_ACTION_TYPE_VIBRATION_OUTPUT: int := 100

  /** `XR_NULL_HANDLE` and `XR_NULL_PATH`. */
  const XR_NULL_HANDLE: int := 0

  /** `GL_RGBA8` and `GL_SRGB8_ALPHA8` (the `_EXT` spellings have the same values). */
  const GL_RGBA8: int := 0x8058
  const GL_SRGB8_ALPHA8: int := 0x8C43

  /** `MAX_TRACKED_HANDS` and `USER_INPUT_MAX`. */
  const MAX_TRACKED_HANDS: int := 2
  const USER_INPUT_MAX: int := 2

  // ---------------------------------------------------------------------
  // Enumeration checks

  /**
    `isReferenceSpaceSupported` as written: a failing count query answers
    `1`, that is true, unlike every other failure of the enumeration.
   */
  function ReferenceSpaceSupportedAsWritten(countResult: int, enumerateResult: int, spaces: seq<int>, space: int): (supported: bool)
    ensures !XrSucceeded(countResult) ==> supported
    ensures XrSucceeded(countResult) ==> (supported <==> XrSucceeded(enumerateResult) && space in spaces)
  {
    if !XrResult(countResult) then true
    else XrResult(enumerateResult) && space in spaces
  }

  /** The runtime cannot even report how many spaces it has, and the answer is still yes. */
  lemma ReferenceSpaceCountFailureAnswersYes(space: int)
    ensures ReferenceSpaceSupportedAsWritten(XR_ERROR_VALIDATION_FAILURE, XR_SUCCESS, [], space)
    ensures space !in []
  {
  }

  /**
    `isReferenceSpaceSupported` corrected to answer false on the failing
    count query, as `isViewConfigSupported` does.
   */
  method IsReferenceSpaceSupported(countResult: int, enumerateResult: int, spaces: seq<int>, space: int)
    returns (supported: bool)
    ensures supported <==> XrSucceeded(countResult) && XrSucceeded(enumerateResult) && space in spaces
    ensures supported ==> ReferenceSpaceSupportedAsWritten(countResult, enumerateResult, spaces, space)
  {
    supported := IsEnumeratedSupported(countResult, enumerateResult, spaces, space);
  }

  // ---------------------------------------------------------------------
  // Instance creation

  /** The name the instance is created with unless the project names itself. */
  const DEFAULT_APPLICATION_NAME: string := "Godot OpenXR Plugin"

  /**
    The `applicationName` written from the project's name (as UTF-8 bytes):
    none for an empty name, so the default stays; otherwise the name cut to
    `XR_MAX_APPLICATION_NAME_SIZE - 1` bytes, leaving room for the NUL.
   */
  function ApplicationName(projectNameUtf8: seq<Byte>): (name: Option<seq<Byte>>)
    ensures name.None? <==> projectNameUtf8 == []
    ensures name.Some? ==> name.value <= projectNameUtf8
    ensures name.Some? ==> |name.value| < XR_MAX_APPLICATION_NAME_SIZE
    ensures name.Some? ==> (name.value == projectNameUtf8 <==> |projectNameUtf8| < XR_MAX_APPLICATION_NAME_SIZE)
    ensures name.Some? && name.value != projectNameUtf8 ==> |name.value| == XR_MAX_APPLICATION_NAME_SIZE - 1
  {
    if |projectNameUtf8| == 0 then None
    else if |projectNameUtf8| < XR_MAX_APPLICATION_NAME_SIZE - 1 then Some(projectNameUtf8)
    else Some(projectNameUtf8[..XR_MAX_APPLICATION_NAME_SIZE - 1])
  }

  /** A name that was cut once is not cut again. */
  lemma ApplicationNameIdempotent(projectNameUtf8: seq<Byte>)
    requires projectNameUtf8 != []
    ensures ApplicationName(ApplicationName(projectNameUtf8).value) == ApplicationName(projectNameUtf8)
  {
  }

  // ---------------------------------------------------------------------
  // Swapchain format

  /** The formats the plugin renders into: sRGB, which the hardware converts, or plain RGBA8. */
  predicate Preferred(format: int)
  {
    format == GL_SRGB8_ALPHA8 || format == GL_RGBA8
  }

  /** The first preferred format in the runtime's best-to-worst order, if any. */
  function FirstPreferred(formats: seq<int>): (r: Option<int>)
    ensures r.None? <==> forall i :: 0 <= i < |formats| ==> !Preferred(formats[i])
    ensures r.Some? ==> Preferred(r.value) && r.value in formats
  {
    if formats == [] then None
    else if Preferred(formats[0]) then Some(formats[0])
    else
      var r := FirstPreferred(formats[1..]);
      assert forall i :: 1 <= i < |formats| ==> formats[i] == formats[1..][i - 1];
      r
  }

  /** A preferred format with no preferred one before it is the one found. */
  lemma {:induction false} FirstPreferredAt(formats: seq<int>, i: int)
    requires 0 <= i < |formats| && Preferred(formats[i])
    requires forall j :: 0 <= j < i ==> !Preferred(formats[j])
    ensures FirstPreferred(formats) == Some(formats[i])
  {
    if i > 0 {
      FirstPreferredAt(formats[1..], i - 1);
    }
  }

  /** Only the order decides: a preferred format in `a` wins over anything appended after it. */
  lemma {:induction false} FirstPreferredAppend(a: seq<int>, b: seq<int>)
    ensures FirstPreferred(a + b) == if FirstPreferred(a).Some? then FirstPreferred(a) else FirstPreferred(b)
  {
    if a != [] {
      assert (a + b)[0] == a[0];
      assert (a + b)[1..] == a[1..] + b;
      FirstPreferredAppend(a[1..], b);
    } else {
      assert a + b == b;
    }
  }

  /**
    The format loop of `initialiseSwapChains`: it stops at the first
    preferred format; `keep_3d_linear` is cleared only when that format is
    sRGB; with none preferred, the first format is used. The runtime
    reports at least one format.
   */
  method ChooseSwapchainFormat(formats: seq<int>) returns (formatToUse: int, keep3dLinear: bool)
    requires formats != []
    ensures formatToUse == match FirstPreferred(formats) { case Some(f) => f case None => formats[0] }
    ensures keep3dLinear <==> formatToUse != GL_SRGB8_ALPHA8
  {
    formatToUse := 0;
    keep3dLinear := true;
    var i := 0;
    while i < |formats| && formatToUse == 0
      invariant 0 <= i <= |formats|
      invariant formatToUse == 0 ==> keep3dLinear && forall j :: 0 <= j < i ==> !Preferred(formats[j])
      invariant formatToUse != 0 ==> FirstPreferred(formats) == Some(formatToUse)
      invariant keep3dLinear <==> formatToUse != GL_SRGB8_ALPHA8
    {
      if formats[i] == GL_SRGB8_ALPHA8 {
        formatToUse := formats[i];
        keep3dLinear := false;
        FirstPreferredAt(formats, i);
      }
      if formats[i] == GL_RGBA8 {
        formatToUse := formats[i];
        FirstPreferredAt(formats, i);
      }
      i := i + 1;
    }
    if formatToUse == 0 {
      formatToUse := formats[0];
    }
  }

  // ---------------------------------------------------------------------
  // Action-set JSON

  /** The `type` strings of the action-set JSON and the action types they create; any other string skips the action. */
  function ActionType(typeName: string): (actionType: Option<int>)
    ensures actionType.Some? ==> ActionTypeName(actionType.value) == Some(typeName)
  {
    if typeName == "bool" then Some(XR_ACTION_TYPE_BOOLEAN_INPUT)
    else if typeName == "float" then Some(XR_ACTION_TYPE_FLOAT_INPUT)
    else if typeName == "vector2" then Some(XR_ACTION_TYPE_VECTOR2F_INPUT)
    else if typeName == "pose" then Some(XR_ACTION_TYPE_POSE_INPUT)
    else if typeName == "vibration" then Some(XR_ACTION_TYPE_VIBRATION_OUTPUT)
    else None
  }

  /** The JSON spelling of each action type the plugin creates. */
  function ActionTypeName(actionType: int): (typeName: Option<string>)
    ensures typeName.Some? <==> actionType in {XR_ACTION_TYPE_BOOLEAN_INPUT, XR_ACTION_TYPE_FLOAT_INPUT,
      XR_ACTION_TYPE_VECTOR2F_INPUT, XR_ACTION_TYPE_POSE_INPUT, XR_ACTION_TYPE_VIBRATION_OUTPUT}
  {
    match actionType
    case 1 => Some("bool")
    case 2 => Some("float")
    case 3 => Some("vector2")
    case 4 => Some("pose")
    case 100 => Some("vibration")
    case _ => None
  }

  /** The two tables are inverse to each other, in both directions. */
  lemma ActionTypeRoundTrip(typeName: string, actionType: int)
    ensures ActionType(typeName) == Some(actionType) <==> ActionTypeName(actionType) == Some(typeName)
  {
    if ActionTypeName(actionType) == Some(typeName) {
      assert actionType in {1, 2, 3, 4, 100};
    }
  }

  // ---------------------------------------------------------------------
  // Default actions

  /** `DefaultActions`, the enumerators before `ACTION_MAX`, in declaration order. */
  datatype DefaultAction =
    | AimPose | GripPose
    | FrontTrigger | SideTrigger | Joystick
    | AxButton | BymButton | FrontButton | SideButton | JoystickButton
    | Haptic
  {
    /** The enumerator's value. */
    function Index(): nat
    {
      match this
      case AimPose => 0
      case GripPose => 1
      case FrontTrigger => 2
      case SideTrigger => 3
      case Joystick => 4
      case AxButton => 5
      case BymButton => 6
      case FrontButton => 7
      case SideButton => 8
      case JoystickButton => 9
      case Haptic => 10
    }
  }

  const ACTION_MAX: int := 11

  /** `default_actions`: name and action type per enumerator. */
  const DEFAULT_ACTIONS: seq<(string, int)> := [
    ("aim_pose", XR_ACTION_TYPE_POSE_INPUT),
    ("grip_pose", XR_ACTION_TYPE_POSE_INPUT),
    ("front_trigger", XR_ACTION_TYPE_FLOAT_INPUT),
    ("side_trigger", XR_ACTION_TYPE_FLOAT_INPUT),
    ("joystick", XR_ACTION_TYPE_VECTOR2F_INPUT),
    ("ax_buttons", XR_ACTION_TYPE_BOOLEAN_INPUT),
    ("bym_button", XR_ACTION_TYPE_BOOLEAN_INPUT),
    ("front_button", XR_ACTION_TYPE_BOOLEAN_INPUT),
    ("side_button", XR_ACTION_TYPE_BOOLEAN_INPUT),
    ("joystick_button", XR_ACTION_TYPE_BOOLEAN_INPUT),
    ("haptic", XR_ACTION_TYPE_VIBRATION_OUTPUT)
  ]

  /** The entry of one default action. */
  function DefaultActionEntry(a: DefaultAction): (entry: (string, int))
    ensures ActionTypeName(entry.1).Some?
    ensures a.Index() < ACTION_MAX
  {
    DEFAULT_ACTIONS[a.Index()]
  }

  /**
    One entry per enumerator, with pairwise distinct names, and every
    default action's type is one the action-set JSON can name.
   */
  lemma DefaultActionsTable(a: DefaultAction, b: DefaultAction)
    ensures |DEFAULT_ACTIONS| == ACTION_MAX
    ensures a.Index() == b.Index() ==> a == b
    ensures a != b ==> DefaultActionEntry(a).0 != DefaultActionEntry(b).0
  {
  }

  /** Where `update_actions` forwards a default action on the old controller interface. */
  datatype ControllerOutput = ControllerPose | Axis(axis: int) | AxisPair(x: int, y: int) | Button(button: int) | Rumble | NotForwarded

  function ForwardedTo(a: DefaultAction): (out: ControllerOutput)
    ensures out.Button? ==> DefaultActionEntry(a).1 == XR_ACTION_TYPE_BOOLEAN_INPUT
    ensures out.Axis? ==> DefaultActionEntry(a).1 == XR_ACTION_TYPE_FLOAT_INPUT
    ensures out.AxisPair? ==> DefaultActionEntry(a).1 == XR_ACTION_TYPE_VECTOR2F_INPUT
  {
    match a
    case AimPose => ControllerPose
    case GripPose => NotForwarded
    case FrontTrigger => Axis(2)
    case SideTrigger => Axis(4)
    case Joystick => AxisPair(0, 1)
    case AxButton => Button(7)
    case BymButton => Button(1)
    case FrontButton => Button(15)
    case SideButton => Button(2)
    case JoystickButton => NotForwarded
    case Haptic => Rumble
  }

  /** No two default actions drive the same button or axis. */
  lemma ForwardedToDistinct(a: DefaultAction, b: DefaultAction)
    requires a != b
    ensures ForwardedTo(a).Button? && ForwardedTo(b).Button? ==> ForwardedTo(a).button != ForwardedTo(b).button
    ensures ForwardedTo(a).Axis? && ForwardedTo(b).Axis? ==> ForwardedTo(a).axis != ForwardedTo(b).axis
    ensures ForwardedTo(a).Axis? && ForwardedTo(b).AxisPair? ==>
              ForwardedTo(a).axis != ForwardedTo(b).x && ForwardedTo(a).axis != ForwardedTo(b).y
  {
  }

  // ---------------------------------------------------------------------
  // Active action sets

  /** An entry of `action_sets`: its `is_active` flag and its `XrActionSet` handle. */
  datatype ActionSetInfo = ActionSetInfo(isActive: bool, handle: int)

  /** The handles `update_actions` syncs: active sets with a handle, in order. */
  function ActiveHandles(sets: seq<ActionSetInfo>): (handles: seq<int>)
    ensures |handles| <= |sets|
  {
    if sets == [] then []
    else
      var last := sets[|sets| - 1];
      ActiveHandles(sets[..|sets| - 1]) + (if last.isActive && last.handle != XR_NULL_HANDLE then [last.handle] else [])
  }

  /** Every synced handle is a non-null handle of an active set, and every such set is synced. */
  lemma {:induction false} ActiveHandlesExactly(sets: seq<ActionSetInfo>, h: int)
    ensures h in ActiveHandles(sets) <==>
              h != XR_NULL_HANDLE && exists i :: 0 <= i < |sets| && sets[i].isActive && sets[i].handle == h
  {
    if sets != [] {
      var init := sets[..|sets| - 1];
      ActiveHandlesExactly(init, h);
      assert forall i :: 0 <= i < |init| ==> init[i] == sets[i];
      if h != XR_NULL_HANDLE && (exists i :: 0 <= i < |sets| && sets[i].isActive && sets[i].handle == h) {
        var i :| 0 <= i < |sets| && sets[i].isActive && sets[i].handle == h;
        if i < |init| {
          assert init[i] == sets[i];
        }
      }
    }
  }

  /** The loop of `update_actions` that gathers the `XrActiveActionSet`s. */
  method CollectActiveSets(sets: seq<ActionSetInfo>) returns (handles: seq<int>)
    ensures handles == ActiveHandles(sets)
  {
    handles := [];
    var s := 0;
    while s < |sets|
      invariant 0 <= s <= |sets|
      invariant handles == ActiveHandles(sets[..s])
    {
      assert sets[..s + 1][..s] == sets[..s];
      if sets[s].isActive && sets[s].handle != XR_NULL_HANDLE {
        handles := handles + [sets[s].handle];
      }
      s := s + 1;
    }
    assert sets[..s] == sets;
  }

  // ---------------------------------------------------------------------
  // Controller slots

  /** `godot_controller` of an input map when no Godot controller is attached. */
  const NO_CONTROLLER: int := -1

  /**
    One input map in the controller loop of `update_actions`: without a
    top-level path nothing happens; an active hand keeps its controller or,
    with none, gets the one `godot_arvr_add_controller` returns; an inactive
    hand loses its controller.
   */
  function NextControllerSlot(slot: int, hasPath: bool, active: bool, added: int): (next: int)
    ensures !hasPath ==> next == slot
    ensures hasPath && !active ==> next == NO_CONTROLLER
    ensures hasPath && active && slot != NO_CONTROLLER ==> next == slot
    ensures hasPath && active && slot == NO_CONTROLLER ==> next == added
  {
    if !hasPath then slot
    else if active then (if slot == NO_CONTROLLER then added else slot)
    else NO_CONTROLLER
  }

  /** Whether this step calls `godot_arvr_remove_controller` (on the old slot). */
  predicate RemovesController(slot: int, hasPath: bool, active: bool)
  {
    hasPath && !active && slot != NO_CONTROLLER
  }

  /** While a hand stays active its controller is registered once and then kept. */
  lemma {:induction false} ControllerKeptWhileActive(slot: int, added: seq<int>)
    requires forall k :: 0 <= k < |added| ==> added[k] != NO_CONTROLLER
    decreases |added|
    ensures SlotAfterActiveFrames(slot, added) ==
              if slot != NO_CONTROLLER then slot else if added == [] then NO_CONTROLLER else added[0]
  {
    if added != [] {
      ControllerKeptWhileActive(NextControllerSlot(slot, true, true, added[0]), added[1..]);
    }
  }

  /** The slot after consecutive frames in which the hand is active. */
  function SlotAfterActiveFrames(slot: int, added: seq<int>): int
    decreases |added|
  {
    if added == [] then slot
    else SlotAfterActiveFrames(NextControllerSlot(slot, true, true, added[0]), added[1..])
  }

  // ---------------------------------------------------------------------
  // The session object

  /** Identities of registered objects (pointer values in the source). */
  type ExtensionWrapper = nat
  type CompositionLayerProvider = nat

  /** The outcome of one `update_actions` call. */
  datatype UpdateOutcome = UpdateOutcome(synced: bool, removedControllers: seq<int>)

  class OpenXRApi {
    var useCount: int
    var initialised: bool
    var running: bool
    var keep3dLinear: bool
    var formFactor: int
    var actionSetsJson: string
    var interactionProfilesJson: string
    /** `hand_trackers[i].motion_range`. */
    var motionRanges: seq<int>
    var registeredExtensionWrappers: set<ExtensionWrapper>
    var compositionLayerProviders: set<CompositionLayerProvider>
    /** `inputmaps[i].godot_controller`. */
    var godotControllers: seq<int>

    ghost predicate Valid()
      reads this
    {
      && |motionRanges| == MAX_TRACKED_HANDS && |godotControllers| == USER_INPUT_MAX
      // a slot holds -1 or a controller id handed out by Godot
      && forall i :: 0 <= i < |godotControllers| ==> godotControllers[i] >= NO_CONTROLLER
    }

    /**
      The member initialisers and the constructor: not initialised, not
      running, used once, a head-mounted display, the default JSON
      strings, no registrations and no Godot controllers.
     */
    constructor (defaultActionSetsJson: string, defaultInteractionProfilesJson: string)
      ensures Valid()
      ensures useCount == 1 && !initialised && !running && keep3dLinear
      ensures formFactor == XR_FORM_FACTOR_HEAD_MOUNTED_DISPLAY
      ensures actionSetsJson == defaultActionSetsJson
      ensures interactionProfilesJson == defaultInteractionProfilesJson
      ensures motionRanges == [XR_HAND_JOINTS_MOTION_RANGE_UNOBSTRUCTED_EXT, XR_HAND_JOINTS_MOTION_RANGE_UNOBSTRUCTED_EXT]
      ensures registeredExtensionWrappers == {} && compositionLayerProviders == {}
      ensures godotControllers == [NO_CONTROLLER, NO_CONTROLLER]
    {
      useCount := 1;
      initialised := false;
      running := false;
      keep3dLinear := true;
      formFactor := XR_FORM_FACTOR_HEAD_MOUNTED_DISPLAY;
      actionSetsJson := defaultActionSetsJson;
      interactionProfilesJson := defaultInteractionProfilesJson;
      motionRanges := [XR_HAND_JOINTS_MOTION_RANGE_UNOBSTRUCTED_EXT, XR_HAND_JOINTS_MOTION_RANGE_UNOBSTRUCTED_EXT];
      registeredExtensionWrappers := {};
      compositionLayerProviders := {};
      godotControllers := [NO_CONTROLLER, NO_CONTROLLER];
    }

    /**
      `initialize`: an initialised object answers true at once; otherwise
      it is initialised exactly when instance, extensions, session and
      action sets all came up (a failure runs `uninitialize`).
     */
    method Initialize(stepsSucceeded: bool) returns (ok: bool)
      modifies this`initialised, this`godotControllers
      ensures old(initialised) ==> ok && initialised
      ensures !old(initialised) ==> (ok <==> stepsSucceeded) && (initialised <==> stepsSucceeded)
      ensures old(initialised) || stepsSucceeded ==> godotControllers == old(godotControllers)
      ensures !old(initialised) && !stepsSucceeded ==>
                |godotControllers| == |old(godotControllers)|
                && forall i :: 0 <= i < |godotControllers| ==> godotControllers[i] == Unbound(old(godotControllers)[i])
      ensures old(Valid()) ==> Valid()
    {
      if initialised {
        return true;
      }
      if !stepsSucceeded {
        var _ := Uninitialize();
        return false;
      }
      initialised := true;
      ok := true;
    }

    /**
      `unbindActionSets`: every input map with a Godot controller has it
      removed (`godot_arvr_remove_controller`) and its slot set to -1;
      `removed` is the controllers removed, in input-map order.
     */
    method UnbindActionSets() returns (removed: seq<int>)
      modifies this`godotControllers
      ensures |godotControllers| == |old(godotControllers)|
      ensures forall i :: 0 <= i < |godotControllers| ==> godotControllers[i] == Unbound(old(godotControllers)[i])
      ensures removed == AttachedControllers(old(godotControllers))
      ensures old(Valid()) ==> Valid() && godotControllers == [NO_CONTROLLER, NO_CONTROLLER]
    {
      var slots;
      slots, removed := UnbindControllers(godotControllers);
      godotControllers := slots;
    }

    /**
      `uninitialize`: clears `initialised` and, through `cleanupActionSets`,
      unbinds every Godot controller; `running` is left as it was.
     */
    method Uninitialize() returns (removed: seq<int>)
      modifies this`initialised, this`godotControllers
      ensures !initialised
      ensures |godotControllers| == |old(godotControllers)|
      ensures forall i :: 0 <= i < |godotControllers| ==> godotControllers[i] == Unbound(old(godotControllers)[i])
      ensures removed == AttachedControllers(old(godotControllers))
      ensures old(Valid()) ==> Valid() && godotControllers == [NO_CONTROLLER, NO_CONTROLLER]
    {
      removed := UnbindActionSets();
      initialised := false;
    }

    /** `is_running`: running counts only while initialised. */
    function IsRunning(): (r: bool)
      reads this
      ensures r ==> initialised
      ensures initialised ==> (r <==> running)
    {
      if !initialised then false else running
    }

    /** `on_state_ready`: running once `xrBeginSession` succeeds. */
    method OnStateReady(beginResult: int) returns (ok: bool)
      modifies this`running
      ensures ok <==> XrSucceeded(beginResult)
      ensures running == (ok || old(running))
    {
      if !XrResult(beginResult) {
        return false;
      }
      running := true;
      ok := true;
    }

    /**
      `on_state_stopping`: the session ends, the object stops running and
      every Godot controller is unbound.
     */
    method OnStateStopping() returns (ok: bool, removed: seq<int>)
      modifies this`running, this`godotControllers
      ensures ok && !running
      ensures |godotControllers| == |old(godotControllers)|
      ensures forall i :: 0 <= i < |godotControllers| ==> godotControllers[i] == Unbound(old(godotControllers)[i])
      ensures removed == AttachedControllers(old(godotControllers))
      ensures old(Valid()) ==> Valid() && godotControllers == [NO_CONTROLLER, NO_CONTROLLER]
    {
      if running {
        running := false;
      }
      removed := UnbindActionSets();
      ok := true;
    }

    /** `get_hand_tracker`: the index of the tracker, or null past the two hands. */
    function GetHandTracker(hand: nat): (tracker: Option<nat>)
      ensures tracker.Some? <==> hand < MAX_TRACKED_HANDS
      ensures tracker.Some? ==> tracker.value == hand
    {
      if hand < MAX_TRACKED_HANDS then Some(hand) else None
    }

    /** `get_motion_range`: the stored range, or `UNOBSTRUCTED` past the two hands. */
    function GetMotionRange(hand: nat): (range: int)
      reads this
      requires Valid()
      ensures hand < MAX_TRACKED_HANDS ==> range == motionRanges[hand]
      ensures hand >= MAX_TRACKED_HANDS ==> range == XR_HAND_JOINTS_MOTION_RANGE_UNOBSTRUCTED_EXT
    {
      if hand < MAX_TRACKED_HANDS then motionRanges[hand] else XR_HAND_JOINTS_MOTION_RANGE_UNOBSTRUCTED_EXT
    }

    /** `set_motion_range`: stores the range for hands 0 and 1 and ignores any other index. */
    method SetMotionRange(hand: nat, range: int)
      requires Valid()
      modifies this`motionRanges
      ensures Valid()
      ensures motionRanges == if hand < MAX_TRACKED_HANDS then old(motionRanges)[hand := range] else old(motionRanges)
      ensures hand < MAX_TRACKED_HANDS ==> GetMotionRange(hand) == range
    {
      if hand < MAX_TRACKED_HANDS {
        motionRanges := motionRanges[hand := range];
      }
    }

    /** `set_form_factor`: refused once initialised; only the two form factors 1 and 2 are accepted. */
    method SetFormFactor(f: int)
      modifies this`formFactor
      ensures formFactor == if !initialised && XR_FORM_FACTOR_HEAD_MOUNTED_DISPLAY <= f <= XR_FORM_FACTOR_HANDHELD_DISPLAY then f else old(formFactor)
    {
      if initialised {
        return;
      } else if 0 < f <= 2 {
        formFactor := f;
      }
    }

    /** `set_action_sets_json`: refused once initialised. */
    method SetActionSetsJson(json: string)
      modifies this`actionSetsJson
      ensures actionSetsJson == if initialised then old(actionSetsJson) else json
    {
      if !initialised {
        actionSetsJson := json;
      }
    }

    /** `set_interaction_profiles_json`: refused once initialised. */
    method SetInteractionProfilesJson(json: string)
      modifies this`interactionProfilesJson
      ensures interactionProfilesJson == if initialised then old(interactionProfilesJson) else json
    {
      if !initialised {
        interactionProfilesJson := json;
      }
    }

    /** `register_extension_wrapper`: refused once initialised; a `std::set` insert otherwise. */
    method RegisterExtensionWrapper(wrapper: ExtensionWrapper)
      modifies this`registeredExtensionWrappers
      ensures registeredExtensionWrappers == if initialised then old(registeredExtensionWrappers) else old(registeredExtensionWrappers) + {wrapper}
    {
      if initialised {
        return;
      }
      registeredExtensionWrappers := registeredExtensionWrappers + {wrapper};
    }

    method RegisterCompositionLayerProvider(provider: CompositionLayerProvider)
      modifies this`compositionLayerProviders
      ensures compositionLayerProviders == old(compositionLayerProviders) + {provider}
    {
      compositionLayerProviders := compositionLayerProviders + {provider};
    }

    /** A `std::set` erase: a provider that was never registered changes nothing. */
    method UnregisterCompositionLayerProvider(provider: CompositionLayerProvider)
      modifies this`compositionLayerProviders
      ensures compositionLayerProviders == old(compositionLayerProviders) - {provider}
      ensures provider !in old(compositionLayerProviders) ==> compositionLayerProviders == old(compositionLayerProviders)
    {
      compositionLayerProviders := compositionLayerProviders - {provider};
    }

    /**
      `update_actions`. It returns before syncing unless initialised,
      running, past the first `xrWaitFrame`, focused and with an action set
      to sync. After the sync every hand with a top-level path is
      reconciled with its aim pose: `hasPath[i]` says the input map has a
      path, `aimPoseActive[i]` is `is_pose_active` of the aim-pose action
      (false when that action was removed), and `added[i]` is the id
      `godot_arvr_add_controller` would return, a Godot controller id and so
      never negative.
     */
    method UpdateActions(predictedDisplayTime: int, sessionState: int, actionSets: seq<ActionSetInfo>,
                         hasPath: seq<bool>, aimPoseActive: seq<bool>, added: seq<int>)
      returns (outcome: UpdateOutcome)
      requires Valid()
      requires |hasPath| == USER_INPUT_MAX && |aimPoseActive| == USER_INPUT_MAX && |added| == USER_INPUT_MAX
      requires forall i :: 0 <= i < |added| ==> added[i] >= 0
      modifies this`godotControllers
      ensures Valid()
      ensures outcome.synced <==>
                initialised && running && predictedDisplayTime != 0 && sessionState == XR_SESSION_STATE_FOCUSED
                && ActiveHandles(actionSets) != []
      ensures !outcome.synced ==> godotControllers == old(godotControllers) && outcome.removedControllers == []
      ensures outcome.synced ==> forall i :: 0 <= i < USER_INPUT_MAX ==>
                godotControllers[i] == NextControllerSlot(old(godotControllers)[i], hasPath[i], aimPoseActive[i], added[i])
      ensures outcome.synced ==> outcome.removedControllers == RemovedControllers(old(godotControllers), hasPath, aimPoseActive)
    {
      if !initialised || !running {
        return UpdateOutcome(false, []);
      }
      if predictedDisplayTime == 0 {
        return UpdateOutcome(false, []);
      }
      if sessionState != XR_SESSION_STATE_FOCUSED {
        return UpdateOutcome(false, []);
      }
      var activeSets := CollectActiveSets(actionSets);
      if |activeSets| == 0 {
        return UpdateOutcome(false, []);
      }
      var slots, removed := ReconcileControllers(godotControllers, hasPath, aimPoseActive, added);
      godotControllers := slots;
      outcome := UpdateOutcome(true, removed);
    }
  }

  /** The controllers removed by one pass of the controller loop, in input-map order. */
  function RemovedControllers(slots: seq<int>, hasPath: seq<bool>, active: seq<bool>): (removed: seq<int>)
    requires |hasPath| == |slots| && |active| == |slots|
    ensures forall c :: c in removed ==> c != NO_CONTROLLER && c in slots
  {
    if slots == [] then []
    else
      var n := |slots| - 1;
      RemovedControllers(slots[..n], hasPath[..n], active[..n])
      + (if RemovesController(slots[n], hasPath[n], active[n]) then [slots[n]] else [])
  }

  /** A slot after `unbindActionSets`: a controller id (`>= 0`) is removed and the slot set to -1. */
  function Unbound(slot: int): (next: int)
    ensures next < 0
    ensures slot >= NO_CONTROLLER ==> next == NO_CONTROLLER
  {
    if slot >= 0 then NO_CONTROLLER else slot
  }

  /** The controllers `unbindActionSets` removes: every slot holding an id `>= 0`, in input-map order. */
  function AttachedControllers(slots: seq<int>): (removed: seq<int>)
    ensures forall c :: c in removed <==> c in slots && c >= 0
    ensures |removed| <= |slots|
  {
    if slots == [] then []
    else
      var n := |slots| - 1;
      AttachedControllers(slots[..n]) + (if slots[n] >= 0 then [slots[n]] else [])
  }

  /**
    Unbinding removes exactly what one pass of the `update_actions` loop
    removes when every hand has a path and has gone inactive.
   */
  lemma {:induction false} UnbindIsAllHandsInactive(slots: seq<int>)
    requires forall i :: 0 <= i < |slots| ==> slots[i] >= NO_CONTROLLER
    ensures AttachedControllers(slots) ==
              RemovedControllers(slots, seq(|slots|, _ => true), seq(|slots|, _ => false))
    ensures forall i :: 0 <= i < |slots| ==> NextControllerSlot(slots[i], true, false, 0) == NO_CONTROLLER
    decreases |slots|
  {
    if slots != [] {
      var n := |slots| - 1;
      UnbindIsAllHandsInactive(slots[..n]);
      assert seq(|slots|, _ => true)[..n] == seq(n, _ => true);
      assert seq(|slots|, _ => false)[..n] == seq(n, _ => false);
    }
  }

  /** Once unbound, a second unbinding removes nothing. */
  lemma {:induction false} UnbindTwiceRemovesNothing(slots: seq<int>)
    requires forall i :: 0 <= i < |slots| ==> slots[i] < 0
    ensures AttachedControllers(slots) == []
    decreases |slots|
  {
    if slots != [] {
      UnbindTwiceRemovesNothing(slots[..|slots| - 1]);
    }
  }

  /** The controller loop of `unbindActionSets` over the input maps. */
  method UnbindControllers(slots: seq<int>) returns (next: seq<int>, removed: seq<int>)
    ensures |next| == |slots|
    ensures forall i :: 0 <= i < |next| ==> next[i] == Unbound(slots[i])
    ensures removed == AttachedControllers(slots)
  {
    next := slots;
    removed := [];
    var i := 0;
    while i < |slots|
      invariant 0 <= i <= |slots|
      invariant |next| == |slots|
      invariant forall j :: 0 <= j < i ==> next[j] == Unbound(slots[j])
      invariant forall j :: i <= j < |slots| ==> next[j] == slots[j]
      invariant removed == AttachedControllers(slots[..i])
    {
      assert slots[..i + 1][..i] == slots[..i];
      if next[i] >= 0 {
        removed := removed + [next[i]];
        next := next[i := NO_CONTROLLER];
      }
      i := i + 1;
    }
    assert slots[..i] == slots;
  }

  /** The controller loop of `update_actions` over the input maps. */
  method ReconcileControllers(slots: seq<int>, hasPath: seq<bool>, active: seq<bool>, added: seq<int>)
    returns (next: seq<int>, removed: seq<int>)
    requires |hasPath| == |slots| && |active| == |slots| && |added| == |slots|
    ensures |next| == |slots|
    ensures forall i :: 0 <= i < |slots| ==> next[i] == NextControllerSlot(slots[i], hasPath[i], active[i], added[i])
    ensures removed == RemovedControllers(slots, hasPath, active)
  {
    next := slots;
    removed := [];
    var i := 0;
    while i < |slots|
      invariant 0 <= i <= |slots|
      invariant |next| == |slots|
      invariant forall j :: 0 <= j < i ==> next[j] == NextControllerSlot(slots[j], hasPath[j], active[j], added[j])
      invariant forall j :: i <= j < |slots| ==> next[j] == slots[j]
      invariant removed == RemovedControllers(slots[..i], hasPath[..i], active[..i])
    {
      assert slots[..i + 1][..i] == slots[..i];
      assert hasPath[..i + 1][..i] == hasPath[..i];
      assert active[..i + 1][..i] == active[..i];
      if hasPath[i] {
        if active[i] {
          if next[i] == NO_CONTROLLER {
            next := next[i := added[i]];
          }
        } else if next[i] != NO_CONTROLLER {
          removed := removed + [next[i]];
          next := next[i := NO_CONTROLLER];
        }
      }
      i := i + 1;
    }
    assert slots[..i] == slots && hasPath[..i] == hasPath && active[..i] == active;
  }

  // ---------------------------------------------------------------------
  // The singleton

  /** `OpenXRApi::singleton`. */
  class ApiSingleton {
    var singleton: OpenXRApi?

    function State(): (s: Singleton)
      reads this, singleton
    {
      if singleton == null then Released else Live(singleton.useCount)
    }

    constructor ()
      ensures singleton == null && State() == Released
    {
      singleton := null;
    }

    /**
      `openxr_get_api`: the existing object with its use count raised, or a
      fresh object with use count 1.
     */
    method OpenXRGetApi(defaultActionSetsJson: string, defaultInteractionProfilesJson: string) returns (api: OpenXRApi)
      modifies this, singleton
      ensures State() == AfterGet(old(State()), true)
      ensures api == singleton
      ensures old(singleton) != null ==> api == old(singleton) && api.initialised == old(singleton.initialised)
      ensures old(singleton) == null ==> fresh(api) && api.Valid() && !api.initialised
    {
      if singleton != null {
        singleton.useCount := singleton.useCount + 1;
        api := singleton;
      } else {
        api := new OpenXRApi(defaultActionSetsJson, defaultInteractionProfilesJson);
        singleton := api;
      }
    }

    /** `openxr_release_api`: count down, or delete the last reference; nothing without an object. */
    method OpenXRReleaseApi()
      modifies this, singleton
      ensures State() == AfterRelease(old(State()))
      ensures singleton == null || (singleton == old(singleton) && singleton.initialised == old(singleton.initialised))
    {
      if singleton == null {
        return;
      } else if singleton.useCount > 1 {
        singleton.useCount := singleton.useCount - 1;
      } else {
        singleton := null;
      }
    }
  }
}
