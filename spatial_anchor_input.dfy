/**
  `XrSpatialAnchor/Src/SimpleXrInput.cpp`: the spatial-anchor sample's
  controller input object. Its `syncCount` sequencing is that of the
  scene-model sample; its buttons report the raw current state.
 */
module SpatialAnchorSimpleXrInput {
  import SceneModelSimpleXrInput

  type Uint32 = SceneModelSimpleXrInput.Uint32

  /** `A()`, `B()`, `X()`, `Y()`: `currentState == XR_TRUE`, with no edge detection. */
  function ButtonValue(changedSinceLastSync: bool, currentState: bool): (down: bool)
    ensures down <==> currentState
  {
    currentState
  }

  /** Unlike the scene-model sample's `IsActionPressed`, a held button keeps reading true. */
  lemma HeldButtonStaysDown(currentState: bool)
    ensures ButtonValue(false, currentState) == currentState
    ensures currentState ==> !SceneModelSimpleXrInput.IsActionPressed(false, currentState)
  {
  }

  /**
    Over successive syncs, a button held down from sync `i` through sync
    `j - 1` reads down at every one of them, whatever `changedSinceLastSync`
    says, while the scene-model sample's edge test reports it only at `i`.
   */
  lemma HeldButtonReadsDownEverySync(before: bool, held: seq<bool>, i: nat, j: nat)
    requires i < j <= |held|
    requires if i == 0 then !before else !held[i - 1]
    requires forall k :: i <= k < j ==> held[k]
    ensures forall k :: i <= k < j ==>
      var s := SceneModelSimpleXrInput.Observations(before, held)[k];
      ButtonValue(s.changedSinceLastSync, s.currentState)
    ensures forall k :: i < k < j ==> !SceneModelSimpleXrInput.PressedAt(SceneModelSimpleXrInput.Observations(before, held), k)
  {
    var obs := SceneModelSimpleXrInput.Observations(before, held);
    forall k | i <= k < j
      ensures ButtonValue(obs[k].changedSinceLastSync, obs[k].currentState)
    {
      assert obs[k] == SceneModelSimpleXrInput.Observe(if k == 0 then before else held[k - 1], held[k]);
    }
    SceneModelSimpleXrInput.HeldPressReportedOnce(before, held, i, j);
  }

  class SimpleXrInput {
    var syncCount: Uint32
    var session: nat
    /** How many times `SyncActions` has created the four action spaces. */
    var spaceCreations: nat

    constructor ()
      ensures syncCount == 0 && session == 0 && spaceCreations == 0
    {
      session := 0;
      spaceCreations := 0;
      syncCount := 0;
    }

    method BeginSession(session_: nat) returns (attached: bool)
      modifies this
      ensures attached <==> old(syncCount) == 0
      ensures syncCount == SceneModelSimpleXrInput.SyncCountAfter(old(syncCount), SceneModelSimpleXrInput.BeginSession)
      ensures session == if attached then session_ else old(session)
      ensures spaceCreations == old(spaceCreations)
    {
      if syncCount != 0 {
        return false;
      }
      syncCount := syncCount + 1;
      session := session_;
      attached := true;
    }

    method EndSession()
      modifies this
      ensures syncCount == 0 && session == old(session) && spaceCreations == old(spaceCreations)
    {
      syncCount := 0;
    }

    method SyncActions()
      modifies this
      ensures spaceCreations == old(spaceCreations)
        + if SceneModelSimpleXrInput.CreatesSpaces(old(syncCount), SceneModelSimpleXrInput.SyncActions) then 1 else 0
      ensures syncCount == SceneModelSimpleXrInput.SyncCountAfter(old(syncCount), SceneModelSimpleXrInput.SyncActions)
      ensures session == old(session)
    {
      if syncCount == 1 {
        spaceCreations := spaceCreations + 1;
      }
      syncCount := (syncCount + 1) % SceneModelSimpleXrInput.UINT32_LIMIT;
    }
  }
}
