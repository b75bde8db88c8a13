/**
  `src/openxr/actions/action.cpp` and `actionset.cpp`: an `Action` keeps,
  per top-level path (a hand), the action space created for it and whether
  its last location was valid; an `ActionSet` owns its actions, refuses
  new ones once attached to the session and never holds two actions of the
  same name. OpenXR handles and paths are integers, 0 being
  `XR_NULL_HANDLE` and `XR_NULL_PATH`; what an OpenXR call reports is a
  parameter.
 */
module OpenXRActions {
  import opened Wrappers
  import opened OpenXRCommon
  import opened OpenXRApiCpp

  const XR_NULL_PATH: int := 0

  /** `path_with_space`. */
  datatype PathWithSpace = PathWithSpace(toplevelPath: int, space: int, wasLocationValid: bool)

  /** The entries `reset_spaces` leaves: every space null, paths and validity flags kept. */
  function ClearedSpaces(paths: seq<PathWithSpace>): (r: seq<PathWithSpace>)
    ensures |r| == |paths|
    ensures forall i :: 0 <= i < |r| ==> r[i].space == XR_NULL_HANDLE
    ensures forall i :: 0 <= i < |r| ==>
              r[i].toplevelPath == paths[i].toplevelPath && r[i].wasLocationValid == paths[i].wasLocationValid
  {
    seq(|paths|, i requires 0 <= i < |paths| => paths[i].(space := XR_NULL_HANDLE))
  }

  /** Resetting twice is resetting once. */
  lemma ClearedSpacesIdempotent(paths: seq<PathWithSpace>)
    ensures ClearedSpaces(ClearedSpaces(paths)) == ClearedSpaces(paths)
  {
    var once := ClearedSpaces(paths);
    assert forall i :: 0 <= i < |once| ==> ClearedSpaces(once)[i] == once[i];
  }

  /** The index of the first entry registered for `path`. */
  function FirstPathIndex(paths: seq<PathWithSpace>, path: int): (k: Option<nat>)
    ensures k.None? <==> forall i :: 0 <= i < |paths| ==> paths[i].toplevelPath != path
    ensures k.Some? ==> k.value < |paths| && paths[k.value].toplevelPath == path
                        && forall i :: 0 <= i < k.value ==> paths[i].toplevelPath != path
  {
    if paths == [] then None
    else if paths[0].toplevelPath == path then Some(0)
    else
      match FirstPathIndex(paths[1..], path)
      case None => None
      case Some(k) => Some(k + 1)
  }

  /** The entry the search loop stops at, the first one for `path`, is the one `FirstPathIndex` names. */
  lemma {:induction false} FirstPathIndexIs(paths: seq<PathWithSpace>, path: int, i: int)
    requires 0 <= i < |paths| && paths[i].toplevelPath == path
    requires forall j :: 0 <= j < i ==> paths[j].toplevelPath != path
    ensures FirstPathIndex(paths, path) == Some(i)
  {
    if i > 0 {
      FirstPathIndexIs(paths[1..], path, i - 1);
    }
  }

  /**
    The guard every typed getter and the haptic pulse share: running, with
    an action handle, a path and the matching action type.
   */
  predicate CanQuery(running: bool, handle: int, path: int, actionType: int, expected: int)
  {
    running && handle != XR_NULL_HANDLE && path != XR_NULL_PATH && actionType == expected
  }

  /** A two-component vector. */
  datatype Vector2 = Vector2(x: real, y: real)

  /** What `get_as_pose` returns: the identity, or the located pose. */
  datatype PoseResult = IdentityPose | LocatedPose

  /** The `XrHapticVibration` handed to `xrApplyHapticFeedback`. */
  datatype HapticVibration = HapticVibration(duration: int, frequency: real, amplitude: real)

  /**
    `do_haptic_pulse` as written: the vibration's `amplitude` member is
    never assigned, so the runtime receives whatever the stack held
    (`storedAmplitude`) instead of `p_amplitude`.
   */
  function HapticPulseAsWritten(running: bool, handle: int, path: int, actionType: int,
                                duration: int, frequency: real, amplitude: real, storedAmplitude: real)
    : (v: Option<HapticVibration>)
    ensures v.Some? <==> CanQuery(running, handle, path, actionType, XR_ACTION_TYPE_VIBRATION_OUTPUT)
    ensures v.Some? ==> v.value == HapticVibration(duration, frequency, storedAmplitude)
  {
    if !running then None
    else if handle == XR_NULL_HANDLE || path == XR_NULL_PATH then None
    else if actionType != XR_ACTION_TYPE_VIBRATION_OUTPUT then None
    else Some(HapticVibration(duration, frequency, storedAmplitude))
  }

  /** The intended pulse: duration, frequency and amplitude as requested. */
  function HapticPulse(running: bool, handle: int, path: int, actionType: int,
                       duration: int, frequency: real, amplitude: real)
    : (v: Option<HapticVibration>)
    ensures v.Some? <==> CanQuery(running, handle, path, actionType, XR_ACTION_TYPE_VIBRATION_OUTPUT)
    ensures v.Some? ==> v.value == HapticVibration(duration, frequency, amplitude)
    ensures v == HapticPulseAsWritten(running, handle, path, actionType, duration, frequency, amplitude, amplitude)
  {
    if !running then None
    else if handle == XR_NULL_HANDLE || path == XR_NULL_PATH then None
    else if actionType != XR_ACTION_TYPE_VIBRATION_OUTPUT then None
    else Some(HapticVibration(duration, frequency, amplitude))
  }

  /** A half-strength pulse goes out with the stale amplitude, here silence. */
  lemma HapticAmplitudeIgnored()
    ensures HapticPulseAsWritten(true, 1, 1, XR_ACTION_TYPE_VIBRATION_OUTPUT, 100, 160.0, 0.5, 0.0)
            == Some(HapticVibration(100, 160.0, 0.0))
    ensures HapticPulse(true, 1, 1, XR_ACTION_TYPE_VIBRATION_OUTPUT, 100, 160.0, 0.5)
            == Some(HapticVibration(100, 160.0, 0.5))
  {
  }

  /** `Action`. */
  class Action {
    const actionType: int
    const name: string
    const handle: int
    var toplevelPaths: seq<PathWithSpace>

    /**
      The constructor: one entry per top-level path, in order, with no
      space and not yet validly located; `createdHandle` is what
      `xrCreateAction` produced (null when it failed).
     */
    constructor (actionType: int, name: string, paths: seq<int>, createdHandle: int)
      ensures this.actionType == actionType && this.name == name && handle == createdHandle
      ensures |toplevelPaths| == |paths|
      ensures forall i :: 0 <= i < |paths| ==> toplevelPaths[i] == PathWithSpace(paths[i], XR_NULL_HANDLE, false)
    {
      this.actionType := actionType;
      this.name := name;
      handle := createdHandle;
      new;
      toplevelPaths := [];
      var i := 0;
      while i < |paths|
        invariant 0 <= i <= |paths| && |toplevelPaths| == i
        invariant forall j :: 0 <= j < i ==> toplevelPaths[j] == PathWithSpace(paths[j], XR_NULL_HANDLE, false)
      {
        toplevelPaths := toplevelPaths + [PathWithSpace(paths[i], XR_NULL_HANDLE, false)];
        i := i + 1;
      }
    }

    /** `reset_spaces`: every space is destroyed and nulled. */
    method ResetSpaces()
      modifies this`toplevelPaths
      ensures toplevelPaths == ClearedSpaces(old(toplevelPaths))
    {
      var i := 0;
      while i < |toplevelPaths|
        invariant 0 <= i <= |toplevelPaths| && |toplevelPaths| == |old(toplevelPaths)|
        invariant forall j :: 0 <= j < i ==> toplevelPaths[j] == old(toplevelPaths)[j].(space := XR_NULL_HANDLE)
        invariant forall j :: i <= j < |toplevelPaths| ==> toplevelPaths[j] == old(toplevelPaths)[j]
      {
        if toplevelPaths[i].space != XR_NULL_HANDLE {
          toplevelPaths := toplevelPaths[i := toplevelPaths[i].(space := XR_NULL_HANDLE)];
        }
        i := i + 1;
      }
    }

    /** `get_as_bool`: false unless the action can be queried, then the runtime's state. */
    function GetAsBool(running: bool, path: int, currentState: bool): (r: bool)
      ensures !CanQuery(running, handle, path, actionType, XR_ACTION_TYPE_BOOLEAN_INPUT) ==> !r
      ensures CanQuery(running, handle, path, actionType, XR_ACTION_TYPE_BOOLEAN_INPUT) ==> r == currentState
    {
      if !running then false
      else if handle == XR_NULL_HANDLE || path == XR_NULL_PATH then false
      else if actionType != XR_ACTION_TYPE_BOOLEAN_INPUT then false
      else currentState
    }

    /** `get_as_float`: 0 unless the action can be queried. */
    function GetAsFloat(running: bool, path: int, currentState: real): (r: real)
      ensures !CanQuery(running, handle, path, actionType, XR_ACTION_TYPE_FLOAT_INPUT) ==> r == 0.0
      ensures CanQuery(running, handle, path, actionType, XR_ACTION_TYPE_FLOAT_INPUT) ==> r == currentState
    {
      if !running then 0.0
      else if handle == XR_NULL_HANDLE || path == XR_NULL_PATH then 0.0
      else if actionType != XR_ACTION_TYPE_FLOAT_INPUT then 0.0
      else currentState
    }

    /** `get_as_vector`: the zero vector unless the action can be queried. */
    function GetAsVector(running: bool, path: int, currentState: Vector2): (r: Vector2)
      ensures !CanQuery(running, handle, path, actionType, XR_ACTION_TYPE_VECTOR2F_INPUT) ==> r == Vector2(0.0, 0.0)
      ensures CanQuery(running, handle, path, actionType, XR_ACTION_TYPE_VECTOR2F_INPUT) ==> r == currentState
    {
      if !running then Vector2(0.0, 0.0)
      else if handle == XR_NULL_HANDLE || path == XR_NULL_PATH then Vector2(0.0, 0.0)
      else if actionType != XR_ACTION_TYPE_VECTOR2F_INPUT then Vector2(0.0, 0.0)
      else Vector2(currentState.x, currentState.y)
    }

    /** `is_pose_active`: a pose action that can be queried, whose query succeeded and is active. */
    function IsPoseActive(running: bool, path: int, queryResult: int, isActive: bool): (r: bool)
      ensures r <==> CanQuery(running, handle, path, actionType, XR_ACTION_TYPE_POSE_INPUT)
                     && XrSucceeded(queryResult) && isActive
    {
      if !running then false
      else if handle == XR_NULL_HANDLE || path == XR_NULL_PATH then false
      else if actionType != XR_ACTION_TYPE_POSE_INPUT then false
      else if !XrResult(queryResult) then false
      else isActive
    }

    /**
      `get_as_pose`: for a pose action that can be queried, the entry of
      `path` gets an action space on first use (`createResult`,
      `createdSpace`), the space is located (`locateResult`) and the
      validity of its orientation recorded; the pose is returned only when
      the orientation is valid. Every other case returns the identity.
     */
    method GetAsPose(running: bool, path: int, createResult: int, createdSpace: int,
                     locateResult: int, orientationValid: bool) returns (pose: PoseResult)
      modifies this`toplevelPaths
      ensures |toplevelPaths| == |old(toplevelPaths)|
      ensures pose == LocatedPose ==> CanQuery(running, handle, path, actionType, XR_ACTION_TYPE_POSE_INPUT)
      ensures (!CanQuery(running, handle, path, actionType, XR_ACTION_TYPE_POSE_INPUT)
               || FirstPathIndex(old(toplevelPaths), path).None?) ==> pose == IdentityPose && toplevelPaths == old(toplevelPaths)
      ensures CanQuery(running, handle, path, actionType, XR_ACTION_TYPE_POSE_INPUT)
              && FirstPathIndex(old(toplevelPaths), path).Some? ==>
                var k := FirstPathIndex(old(toplevelPaths), path).value;
                var e := old(toplevelPaths)[k];
                var needsSpace := e.space == XR_NULL_HANDLE;
                var space := if needsSpace then createdSpace else e.space;
                if needsSpace && !XrSucceeded(createResult) then
                  pose == IdentityPose && toplevelPaths == old(toplevelPaths)
                else if !XrSucceeded(locateResult) then
                  pose == IdentityPose && toplevelPaths == old(toplevelPaths)[k := e.(space := space)]
                else
                  (pose == LocatedPose <==> orientationValid)
                  && toplevelPaths == old(toplevelPaths)[k := PathWithSpace(e.toplevelPath, space, orientationValid)]
    {
      if !running {
        return IdentityPose;
      } else if handle == XR_NULL_HANDLE || path == XR_NULL_PATH {
        return IdentityPose;
      } else if actionType != XR_ACTION_TYPE_POSE_INPUT {
        return IdentityPose;
      }
      var index: Option<nat> := None;
      var i := 0;
      while i < |toplevelPaths| && index == None
        invariant 0 <= i <= |toplevelPaths| && toplevelPaths == old(toplevelPaths)
        invariant index == None ==> forall j :: 0 <= j < i ==> toplevelPaths[j].toplevelPath != path
        invariant index != None ==> index == FirstPathIndex(toplevelPaths, path)
      {
        if toplevelPaths[i].toplevelPath == path {
          index := Some(i);
          FirstPathIndexIs(toplevelPaths, path, i);
        }
        i := i + 1;
      }
      if index == None {
        return IdentityPose;
      }
      var k := index.value;
      if toplevelPaths[k].space == XR_NULL_HANDLE {
        if !XrResult(createResult) {
          return IdentityPose;
        }
        toplevelPaths := toplevelPaths[k := toplevelPaths[k].(space := createdSpace)];
      }
      if !XrResult(locateResult) {
        return IdentityPose;
      }
      var spaceLocationValid := orientationValid;
      if spaceLocationValid != toplevelPaths[k].wasLocationValid {
        toplevelPaths := toplevelPaths[k := toplevelPaths[k].(wasLocationValid := spaceLocationValid)];
        if !spaceLocationValid {
          return IdentityPose;
        }
      }
      if spaceLocationValid {
        pose := LocatedPose;
      } else {
        pose := IdentityPose;
      }
    }

    /** `do_haptic_pulse`, with the amplitude passed on as intended. */
    function DoHapticPulse(running: bool, path: int, duration: int, frequency: real, amplitude: real)
      : (v: Option<HapticVibration>)
      ensures v.Some? <==> CanQuery(running, handle, path, actionType, XR_ACTION_TYPE_VIBRATION_OUTPUT)
      ensures v.Some? ==> v.value.amplitude == amplitude
    {
      HapticPulse(running, handle, path, actionType, duration, frequency, amplitude)
    }
  }

  /** No two actions of a set share a name. */
  predicate UniqueNames(actions: seq<Action>)
  {
    forall i, j :: 0 <= i < j < |actions| ==> actions[i].name != actions[j].name
  }

  /** The index of the action called `name`, if any. */
  function ActionIndex(actions: seq<Action>, name: string): (k: Option<nat>)
    ensures k.None? <==> forall i :: 0 <= i < |actions| ==> actions[i].name != name
    ensures k.Some? ==> k.value < |actions| && actions[k.value].name == name
                        && forall i :: 0 <= i < k.value ==> actions[i].name != name
  {
    if actions == [] then None
    else if actions[0].name == name then Some(0)
    else
      match ActionIndex(actions[1..], name)
      case None => None
      case Some(k) => Some(k + 1)
  }

  /** The first action called `name` is the one `ActionIndex` names. */
  lemma {:induction false} ActionIndexIs(actions: seq<Action>, name: string, i: int)
    requires 0 <= i < |actions| && actions[i].name == name
    requires forall j :: 0 <= j < i ==> actions[j].name != name
    ensures ActionIndex(actions, name) == Some(i)
  {
    if i > 0 {
      ActionIndexIs(actions[1..], name, i - 1);
    }
  }

  /** The look-up loop of `add_action` and `get_action`: the first action called `name`. */
  method FindAction(actions: seq<Action>, name: string) returns (found: Action?)
    ensures ActionIndex(actions, name).None? ==> found == null
    ensures ActionIndex(actions, name).Some? ==> found == actions[ActionIndex(actions, name).value]
  {
    var i := 0;
    while i < |actions|
      invariant 0 <= i <= |actions|
      invariant forall j :: 0 <= j < i ==> actions[j].name != name
    {
      if actions[i].name == name {
        ActionIndexIs(actions, name, i);
        return actions[i];
      }
      i := i + 1;
    }
    return null;
  }

  /** `ActionSet`. */
  class ActionSet {
    var active: bool
    var isAttached: bool
    const name: string
    const handle: int
    var actions: seq<Action>

    ghost predicate Valid()
      reads this
    {
      UniqueNames(actions)
    }

    /**
      The constructor and member initialisers: active, not attached, no
      actions; `createdHandle` is what `xrCreateActionSet` produced.
     */
    constructor (name: string, createdHandle: int)
      ensures Valid()
      ensures active && !isAttached && actions == []
      ensures this.name == name && handle == createdHandle
    {
      active := true;
      isAttached := false;
      this.name := name;
      handle := createdHandle;
      actions := [];
    }

    /** `is_active`. */
    function IsActive(): (r: bool)
      reads this
      ensures r == active
    {
      active
    }

    /** `set_active`: the flag `is_active` reports. */
    method SetActive(isActive: bool)
      modifies this`active
      ensures IsActive() == isActive
    {
      active := isActive;
    }

    /**
      `add_action`: refused (null) once attached; an existing action of
      that name is returned as it is; otherwise a new action is appended
      and returned.
     */
    method AddAction(actionType: int, actionName: string, paths: seq<int>, createdHandle: int) returns (a: Action?)
      requires Valid()
      modifies this`actions
      ensures Valid()
      ensures old(isAttached) ==> a == null && actions == old(actions)
      ensures !old(isAttached) && ActionIndex(old(actions), actionName).Some? ==>
                actions == old(actions) && a == old(actions)[ActionIndex(old(actions), actionName).value]
      ensures !old(isAttached) && ActionIndex(old(actions), actionName).None? ==>
                a != null && fresh(a) && actions == old(actions) + [a]
                && a.name == actionName && a.actionType == actionType && a.handle == createdHandle
                && |a.toplevelPaths| == |paths|
    {
      if isAttached {
        return null;
      }
      var existing := FindAction(actions, actionName);
      if existing != null {
        return existing;
      }
      var newAction := new Action(actionType, actionName, paths, createdHandle);
      actions := actions + [newAction];
      return newAction;
    }

    /** `get_action`: the action of that name, or null. */
    method GetAction(actionName: string) returns (a: Action?)
      ensures a == null <==> forall i :: 0 <= i < |actions| ==> actions[i].name != actionName
      ensures a != null ==> a in actions && a.name == actionName
    {
      a := FindAction(actions, actionName);
    }

    /**
      `attach`: true at once when attached; otherwise it needs the set's
      handle, a session and a successful `xrAttachSessionActionSets`, and
      only then is the set attached.
     */
    method Attach(hasSession: bool, attachResult: int) returns (ok: bool)
      modifies this`isAttached
      ensures old(isAttached) ==> ok && isAttached
      ensures !old(isAttached) ==> (ok <==> handle != XR_NULL_HANDLE && hasSession && XrSucceeded(attachResult))
      ensures isAttached <==> old(isAttached) || ok
    {
      if isAttached {
        return true;
      }
      if handle == XR_NULL_HANDLE {
        return false;
      }
      if !hasSession {
        return false;
      }
      if !XrResult(attachResult) {
        return false;
      }
      isAttached := true;
      return true;
    }

    /** `reset_spaces`: the spaces of every action are reset. */
    method ResetSpaces()
      modifies actions
      ensures forall a :: a in actions ==> a.toplevelPaths == ClearedSpaces(old(a.toplevelPaths))
    {
      var i := 0;
      while i < |actions|
        invariant 0 <= i <= |actions|
        invariant forall j :: 0 <= j < i ==> actions[j].toplevelPaths == ClearedSpaces(old(actions[j].toplevelPaths))
        invariant forall j :: i <= j < |actions| && actions[j] !in actions[..i] ==>
                    actions[j].toplevelPaths == old(actions[j].toplevelPaths)
      {
        var a := actions[i];
        if a in actions[..i] {
          ClearedSpacesIdempotent(old(a.toplevelPaths));
        }
        a.ResetSpaces();
        assert actions[..i + 1] == actions[..i] + [a];
        i := i + 1;
      }
    }
  }
}
