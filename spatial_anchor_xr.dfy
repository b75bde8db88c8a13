/**
  `XrSpatialAnchor/Src/SpatialAnchorXr.cpp`: the anchor list of the scene
  (capped at `MAX_PERSISTENT_SPACES` where the sample checks it), the map
  from pending erase requests to their spaces, the A/B/X falling-edge
  button logic, and the sample's own copy of `bin2hex`.
 */
module SpatialAnchorXr {
  import Wrappers
  import SceneModelXr

  const MAX_PERSISTENT_SPACES: nat := 20

  /** An `XrSpace` handle. */
  type Space = nat
  /** An `XrAsyncRequestIdFB`. */
  type RequestId = nat

  /** `bin2hex`: the same encoding as the scene-model sample's. */
  method Bin2Hex(src: seq<SceneModelXr.Byte>) returns (res: string)
    ensures res == SceneModelXr.HexOf(src)
  {
    res := [];
    var i := 0;
    while i < |src|
      invariant 0 <= i <= |src|
      invariant res == SceneModelXr.HexOf(src[..i])
    {
      var c := src[i];
      res := res + [SceneModelXr.HexDigits[c / 16]];
      res := res + [SceneModelXr.HexDigits[c % 16]];
      assert src[..i + 1] == src[..i] + [c];
      SceneModelXr.HexOfAppend(src[..i], c);
      i := i + 1;
    }
    assert src[..i] == src;
  }

  /** `push_back` behind a `size() < MAX_PERSISTENT_SPACES` guard. */
  function CappedAppend(spaces: seq<Space>, space: Space): (r: seq<Space>)
    ensures |spaces| < MAX_PERSISTENT_SPACES ==> r == spaces + [space]
    ensures |spaces| >= MAX_PERSISTENT_SPACES ==> r == spaces
  {
    if |spaces| < MAX_PERSISTENT_SPACES then spaces + [space] else spaces
  }

  /** The guarded appends never take a list past the cap. */
  lemma CappedAppendKeepsCap(spaces: seq<Space>, space: Space)
    requires |spaces| <= MAX_PERSISTENT_SPACES
    ensures |CappedAppend(spaces, space)| <= MAX_PERSISTENT_SPACES
    ensures |CappedAppend(spaces, space)| >= |spaces|
  {
  }

  /** `aPrevButtonVal != aButtonVal && aPrevButtonVal`. */
  predicate FallingEdge(prev: bool, current: bool)
  {
    prev != current && prev
  }

  lemma FallingEdgeIsRelease(prev: bool, current: bool)
    ensures FallingEdge(prev, current) <==> prev && !current
    ensures !FallingEdge(current, current)
  {
  }

  /** The list and the erase map after `DestroyAnchor`, given the result of `xrEraseSpaceFB` and the request id it handed out. */
  datatype AnchorState = AnchorState(spaceList: seq<Space>, destroySpaceEventMap: map<RequestId, Space>)

  function AfterDestroy(s: AnchorState, eraseSucceeded: bool, requestId: RequestId): (t: AnchorState)
    ensures s.spaceList == [] ==> t == s
    ensures s.spaceList != [] ==> t.spaceList == s.spaceList[..|s.spaceList| - 1]
    ensures s.spaceList != [] && eraseSucceeded ==>
      t.destroySpaceEventMap == s.destroySpaceEventMap[requestId := s.spaceList[|s.spaceList| - 1]]
    ensures !eraseSucceeded ==> t.destroySpaceEventMap == s.destroySpaceEventMap
  {
    if s.spaceList == [] then s
    else
      var space := s.spaceList[|s.spaceList| - 1];
      var list := s.spaceList[..|s.spaceList| - 1];
      if eraseSucceeded then AnchorState(list, s.destroySpaceEventMap[requestId := space])
      else AnchorState(list, s.destroySpaceEventMap)
  }

  /** The erase-complete handler: the map without the request, and the space it hands to `xrDestroySpace`. */
  function AfterEraseComplete(m: map<RequestId, Space>, succeeded: bool, requestId: RequestId): (r: (map<RequestId, Space>, Wrappers.Option<Space>))
    ensures succeeded && requestId in m ==> r.0 == m - {requestId} && r.1 == Wrappers.Some(m[requestId])
    ensures !(succeeded && requestId in m) ==> r.0 == m && r.1 == Wrappers.None
  {
    if succeeded && requestId in m then (m - {requestId}, Wrappers.Some(m[requestId]))
    else (m, Wrappers.None)
  }

  /**
    Destroying the last anchor and then receiving the successful
    erase-complete event for that request restores the erase map and hands
    exactly that anchor to `xrDestroySpace`.
   */
  lemma DestroyThenEraseComplete(s: AnchorState, requestId: RequestId)
    requires s.spaceList != [] && requestId !in s.destroySpaceEventMap
    ensures var t := AfterDestroy(s, true, requestId);
      AfterEraseComplete(t.destroySpaceEventMap, true, requestId)
        == (s.destroySpaceEventMap, Wrappers.Some(s.spaceList[|s.spaceList| - 1]))
  {
    var t := AfterDestroy(s, true, requestId);
    assert t.destroySpaceEventMap - {requestId} == s.destroySpaceEventMap;
  }

  /** A failed erase destroys nothing: the anchor leaves the list but never reaches the map. */
  lemma FailedEraseForgetsAnchor(s: AnchorState, requestId: RequestId)
    requires s.spaceList != [] && requestId !in s.destroySpaceEventMap
    ensures AfterEraseComplete(AfterDestroy(s, false, requestId).destroySpaceEventMap, true, requestId).1 == Wrappers.None
  {
  }

  /** The part of `ovrApp` and of `AppRenderer.Scene` that the anchor logic updates. */
  class AnchorApp {
    var spaceList: seq<Space>
    var destroySpaceEventMap: map<RequestId, Space>
    var shouldQueryAnchors: bool
    /** The A, B and X values of this frame, as `aButtonVal`, `bButtonVal`, `xButtonVal`. */
    var aButtonVal: bool
    var bButtonVal: bool
    var xButtonVal: bool

    function State(): AnchorState
      reads this
    {
      AnchorState(spaceList, destroySpaceEventMap)
    }

    constructor ()
      ensures spaceList == [] && destroySpaceEventMap == map[] && shouldQueryAnchors
      ensures !aButtonVal && !bButtonVal && !xButtonVal
    {
      spaceList := [];
      destroySpaceEventMap := map[];
      shouldQueryAnchors := true;
      aButtonVal := false;
      bButtonVal := false;
      xButtonVal := false;
    }

    /** `DestroyAnchor`: pop the last anchor and remember the erase request for it when the call succeeded. */
    method DestroyAnchor(eraseSucceeded: bool, requestId: RequestId)
      modifies this
      ensures State() == AfterDestroy(old(State()), eraseSucceeded, requestId)
      ensures shouldQueryAnchors == old(shouldQueryAnchors)
      ensures aButtonVal == old(aButtonVal) && bButtonVal == old(bButtonVal) && xButtonVal == old(xButtonVal)
    {
      if |spaceList| == 0 {
        return;
      }
      var space := spaceList[|spaceList| - 1];
      spaceList := spaceList[..|spaceList| - 1];
      if eraseSucceeded {
        destroySpaceEventMap := destroySpaceEventMap[requestId := space];
      }
    }

    /** `PlaceAnchor`: whether `xrCreateSpatialAnchorFB` is called; the list itself grows only on the completion event. */
    method PlaceAnchor(hasInput: bool, hasSession: bool) returns (createRequested: bool)
      ensures createRequested <==> hasInput && hasSession && |spaceList| < MAX_PERSISTENT_SPACES
    {
      if !hasInput {
        return false;
      }
      if !hasSession {
        return false;
      }
      if |spaceList| >= MAX_PERSISTENT_SPACES {
        return false;
      }
      return true;
    }

    /** `SPACE_SET_STATUS_COMPLETE` for the locatable component: a capped append on success. */
    method OnLocatableStatusComplete(succeeded: bool, space: Space)
      modifies this
      ensures spaceList == if succeeded then CappedAppend(old(spaceList), space) else old(spaceList)
      ensures destroySpaceEventMap == old(destroySpaceEventMap) && shouldQueryAnchors == old(shouldQueryAnchors)
      ensures aButtonVal == old(aButtonVal) && bButtonVal == old(bButtonVal) && xButtonVal == old(xButtonVal)
    {
      if succeeded {
        if |spaceList| < MAX_PERSISTENT_SPACES {
          spaceList := spaceList + [space];
        }
      }
    }

    /** `SPATIAL_ANCHOR_CREATE_COMPLETE`: the new anchor is appended with no cap check. */
    method OnAnchorCreateComplete(space: Space)
      modifies this
      ensures spaceList == old(spaceList) + [space]
      ensures destroySpaceEventMap == old(destroySpaceEventMap) && shouldQueryAnchors == old(shouldQueryAnchors)
      ensures aButtonVal == old(aButtonVal) && bButtonVal == old(bButtonVal) && xButtonVal == old(xButtonVal)
    {
      spaceList := spaceList + [space];
    }

    /**
      A query result whose locatable component was already enabled
      (`XR_ERROR_SPACE_COMPONENT_STATUS_ALREADY_SET_FB`): a capped append.
     */
    method OnQueryResult(locatable: bool, alreadySet: bool, space: Space)
      modifies this
      ensures spaceList == if locatable && alreadySet then CappedAppend(old(spaceList), space) else old(spaceList)
      ensures destroySpaceEventMap == old(destroySpaceEventMap) && shouldQueryAnchors == old(shouldQueryAnchors)
      ensures aButtonVal == old(aButtonVal) && bButtonVal == old(bButtonVal) && xButtonVal == old(xButtonVal)
    {
      if locatable && alreadySet {
        if |spaceList| < MAX_PERSISTENT_SPACES {
          spaceList := spaceList + [space];
        }
      }
    }

    /** `SPACE_ERASE_COMPLETE`: on success, the pending request is dropped and its space destroyed. */
    method OnEraseComplete(succeeded: bool, requestId: RequestId) returns (destroyed: Wrappers.Option<Space>)
      modifies this
      ensures (destroySpaceEventMap, destroyed) == AfterEraseComplete(old(destroySpaceEventMap), succeeded, requestId)
      ensures spaceList == old(spaceList) && shouldQueryAnchors == old(shouldQueryAnchors)
      ensures aButtonVal == old(aButtonVal) && bButtonVal == old(bButtonVal) && xButtonVal == old(xButtonVal)
    {
      destroyed := Wrappers.None;
      if succeeded {
        if requestId in destroySpaceEventMap {
          destroyed := Wrappers.Some(destroySpaceEventMap[requestId]);
          destroySpaceEventMap := destroySpaceEventMap - {requestId};
        }
      }
    }

    /** The `if (app.ShouldQueryAnchors)` block: the list is emptied before the query refills it. */
    method QueryIfRequested() returns (queried: bool)
      modifies this
      ensures queried == old(shouldQueryAnchors)
      ensures spaceList == if queried then [] else old(spaceList)
      ensures !shouldQueryAnchors && destroySpaceEventMap == old(destroySpaceEventMap)
      ensures aButtonVal == old(aButtonVal) && bButtonVal == old(bButtonVal) && xButtonVal == old(xButtonVal)
    {
      queried := shouldQueryAnchors;
      if shouldQueryAnchors {
        spaceList := [];
        shouldQueryAnchors := false;
      }
    }

    /**
      The button block, given this frame's A, B and X and the results the
      two foreign calls would give: place on an A release, destroy on a B
      release, request a query on an X release.
     */
    method HandleButtons(a: bool, b: bool, x: bool, hasSession: bool, eraseSucceeded: bool, requestId: RequestId)
      returns (createRequested: bool)
      modifies this
      ensures aButtonVal == a && bButtonVal == b && xButtonVal == x
      ensures createRequested <==> FallingEdge(old(aButtonVal), a) && hasSession && |old(spaceList)| < MAX_PERSISTENT_SPACES
      ensures State() == if FallingEdge(old(bButtonVal), b) then AfterDestroy(old(State()), eraseSucceeded, requestId) else old(State())
      ensures shouldQueryAnchors == (old(shouldQueryAnchors) || FallingEdge(old(xButtonVal), x))
    {
      var aPrev := aButtonVal;
      aButtonVal := a;
      createRequested := false;
      if aPrev != aButtonVal && aPrev {
        createRequested := PlaceAnchor(true, hasSession);
      }
      var bPrev := bButtonVal;
      bButtonVal := b;
      if bPrev != bButtonVal && bPrev {
        DestroyAnchor(eraseSucceeded, requestId);
      }
      var xPrev := xButtonVal;
      xButtonVal := x;
      if xPrev != xButtonVal && xPrev {
        shouldQueryAnchors := true;
      }
    }
  }
}
