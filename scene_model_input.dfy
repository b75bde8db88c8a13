/**
  `XrSceneModel/Src/SimpleXrInput.cpp`: the controller input object of the
  scene-model sample. `syncCount` orders `BeginSession`, `SyncActions` and
  `EndSession`; the thumbstick directions go through a rising-edge
  detector; a button counts as pressed when it went down since the last
  sync.
 */
module SceneModelSimpleXrInput {

  /** `uint32_t` arithmetic: `syncCount++` wraps at 2^32. */
  const UINT32_LIMIT: int := 0x1_0000_0000

  type Uint32 = x: int | 0 <= x < UINT32_LIMIT

  /** The calls that touch `syncCount`. */
  datatype SessionCall = BeginSession | SyncActions | EndSession

  /** `syncCount` after one call. */
  function SyncCountAfter(syncCount: Uint32, call: SessionCall): (next: Uint32)
    ensures call == EndSession ==> next == 0
  {
    match call
    case BeginSession => if syncCount != 0 then syncCount else 1
    case SyncActions => (syncCount + 1) % UINT32_LIMIT
    case EndSession => 0
  }

  /** `SyncActions` creates the four action spaces when it finds `syncCount == 1`. */
  predicate CreatesSpaces(syncCount: Uint32, call: SessionCall)
  {
    call == SyncActions && syncCount == 1
  }

  /** `syncCount` after a sequence of calls, and how many times the spaces were created. */
  function Run(syncCount: Uint32, calls: seq<SessionCall>): (r: (Uint32, nat))
    ensures r.1 <= |calls|
    decreases |calls|
  {
    if calls == [] then (syncCount, 0)
    else
      var rest := Run(SyncCountAfter(syncCount, calls[0]), calls[1..]);
      (rest.0, rest.1 + if CreatesSpaces(syncCount, calls[0]) then 1 else 0)
  }

  function Syncs(k: nat): (calls: seq<SessionCall>)
    ensures |calls| == k && forall i :: 0 <= i < k ==> calls[i] == SyncActions
  {
    if k == 0 then [] else [SyncActions] + Syncs(k - 1)
  }

  /** Syncing `k` times from a count of at least 2 (and below the wrap) creates nothing and adds `k`. */
  lemma {:induction false} SyncsAfterFirst(c: Uint32, k: nat)
    requires 2 <= c && c + k < UINT32_LIMIT
    ensures Run(c, Syncs(k)) == (c + k, 0)
    decreases k
  {
    if k > 0 {
      assert Syncs(k)[1..] == Syncs(k - 1);
      SyncsAfterFirst(c + 1, k - 1);
    }
  }

  /**
    A session that begins on a reset count and then syncs `k >= 1` times
    (fewer than 2^32 - 1) creates the action spaces exactly once, on its
    first sync, and leaves `syncCount == k + 1`.
   */
  lemma SpacesCreatedOncePerSession(k: nat)
    requires 1 <= k < UINT32_LIMIT - 1
    ensures Run(0, [BeginSession] + Syncs(k)) == (k + 1, 1)
  {
    var calls := [BeginSession] + Syncs(k);
    assert calls[1..] == Syncs(k);
    assert Syncs(k)[1..] == Syncs(k - 1);
    SyncsAfterFirst(2, k - 1);
  }

  /** `BeginSession` is refused until `EndSession` has reset the count. */
  lemma BeginOnlyAfterReset(c: Uint32)
    ensures c != 0 ==> SyncCountAfter(c, BeginSession) == c
    ensures SyncCountAfter(SyncCountAfter(c, EndSession), BeginSession) == 1
  {
  }

  /**
    `IsJoyStickMoved`: the move is reported on the rising edge only. The
    reference parameter `currentState` is returned as the second component.
   */
  function IsJoyStickMoved(currentState: bool, inputState: bool): (r: (bool, bool))
    ensures r.0 <==> !currentState && inputState
    ensures r.1 == inputState
  {
    var isMoved := if currentState != inputState then inputState else false;
    (isMoved, inputState)
  }

  /** One thumbstick direction: `currentThumbStick<Dir>` and `isThumbStick<Dir>`. */
  datatype Direction = Direction(current: bool, isMoved: bool)

  function Track(d: Direction, input: bool): (next: Direction)
    ensures next.isMoved <==> !d.current && input
    ensures next.current == input
  {
    var (moved, state) := IsJoyStickMoved(d.current, input);
    Direction(state, moved)
  }

  /** Holding a direction reports one move: a second sync with the same input reports none. */
  lemma HeldDirectionReportsOnce(d: Direction, input: bool)
    ensures !Track(Track(d, input), input).isMoved
  {
  }

  /** `IsActionPressed`: `changedSinceLastSync == XR_TRUE && currentState == XR_TRUE`. */
  function IsActionPressed(changedSinceLastSync: bool, currentState: bool): (pressed: bool)
    ensures pressed ==> currentState
    ensures pressed ==> changedSinceLastSync
    ensures changedSinceLastSync && currentState ==> pressed
  {
    changedSinceLastSync && currentState
  }

  /**
    A boolean action's `XrActionStateBoolean` as the runtime reports it
    after a sync: `changedSinceLastSync` is set exactly when the state
    differs from the one at the previous sync.
   */
  datatype ActionStateBoolean = ActionStateBoolean(changedSinceLastSync: bool, currentState: bool)

  function Observe(before: bool, now: bool): (s: ActionStateBoolean)
    ensures s.currentState == now
    ensures s.changedSinceLastSync <==> before != now
  {
    ActionStateBoolean(before != now, now)
  }

  /** The states reported over successive syncs, for a button that was `before` at the sync preceding them. */
  function Observations(before: bool, held: seq<bool>): (obs: seq<ActionStateBoolean>)
    ensures |obs| == |held|
    ensures forall k :: 0 <= k < |held| ==> obs[k] == Observe(if k == 0 then before else held[k - 1], held[k])
    decreases |held|
  {
    if held == [] then [] else [Observe(before, held[0])] + Observations(held[0], held[1..])
  }

  /** `IsActionPressed` applied to a reported state. */
  predicate PressedAt(obs: seq<ActionStateBoolean>, k: nat)
    requires k < |obs|
  {
    IsActionPressed(obs[k].changedSinceLastSync, obs[k].currentState)
  }

  /** A press is reported at a sync exactly when the button is down there and was up at the sync before. */
  lemma PressReportedOnRisingEdge(before: bool, held: seq<bool>, k: nat)
    requires k < |held|
    ensures PressedAt(Observations(before, held), k) <==> held[k] && !(if k == 0 then before else held[k - 1])
  {
  }

  /**
    A button pushed at sync `i` and held through sync `j - 1` is reported
    pressed once, at sync `i`, and not again while it stays down.
   */
  lemma HeldPressReportedOnce(before: bool, held: seq<bool>, i: nat, j: nat)
    requires i < j <= |held|
    requires if i == 0 then !before else !held[i - 1]
    requires forall k :: i <= k < j ==> held[k]
    ensures PressedAt(Observations(before, held), i)
    ensures forall k :: i < k < j ==> !PressedAt(Observations(before, held), k)
  {
    var obs := Observations(before, held);
    forall k | i < k < j
      ensures !PressedAt(obs, k)
    {
      assert held[k - 1];
    }
  }

  /** The fields of `SimpleXrInputImpl` that its control flow depends on. */
  class SimpleXrInput {
    var syncCount: Uint32
    /** The session handle `BeginSession` stores. */
    var session: nat
    /** How many times `SyncActions` has created the four action spaces. */
    var spaceCreations: nat
    var up: Direction
    var down: Direction
    var left: Direction
    var right: Direction

    /** The constructor: every stick flag false, and `syncCount = 0` once the bindings are suggested. */
    constructor ()
      ensures syncCount == 0 && session == 0 && spaceCreations == 0
      ensures up == down == left == right == Direction(false, false)
    {
      up, down, left, right := Direction(false, false), Direction(false, false), Direction(false, false), Direction(false, false);
      session := 0;
      spaceCreations := 0;
      syncCount := 0;
    }

    /** `BeginSession`: proceeds (stores the session and attaches the action set) only on a reset count. */
    method BeginSession(session_: nat) returns (attached: bool)
      modifies this
      ensures attached <==> old(syncCount) == 0
      ensures syncCount == SyncCountAfter(old(syncCount), SessionCall.BeginSession)
      ensures session == if attached then session_ else old(session)
      ensures spaceCreations == old(spaceCreations)
      ensures up == old(up) && down == old(down) && left == old(left) && right == old(right)
    {
      if syncCount != 0 {
        return false;
      }
      syncCount := syncCount + 1;
      session := session_;
      attached := true;
    }

    method EndSession()
      modifies this
      ensures syncCount == 0
      ensures session == old(session) && spaceCreations == old(spaceCreations)
      ensures up == old(up) && down == old(down) && left == old(left) && right == old(right)
    {
      syncCount := 0;
    }

    /**
      `SyncActions`, with the four thumbstick threshold tests
      (`y > 0.5`, `y < -0.5`, `x > 0.5`, `x < -0.5`) given as booleans.
     */
    method SyncActions(upInput: bool, downInput: bool, rightInput: bool, leftInput: bool)
      modifies this
      ensures spaceCreations == old(spaceCreations) + if CreatesSpaces(old(syncCount), SessionCall.SyncActions) then 1 else 0
      ensures syncCount == SyncCountAfter(old(syncCount), SessionCall.SyncActions)
      ensures session == old(session)
      ensures up == Track(old(up), upInput) && down == Track(old(down), downInput)
      ensures right == Track(old(right), rightInput) && left == Track(old(left), leftInput)
    {
      if syncCount == 1 {
        spaceCreations := spaceCreations + 1;
      }
      syncCount := (syncCount + 1) % UINT32_LIMIT;
      var r := IsJoyStickMoved(up.current, upInput);
      up := Direction(r.1, r.0);
      r := IsJoyStickMoved(down.current, downInput);
      down := Direction(r.1, r.0);
      r := IsJoyStickMoved(right.current, rightInput);
      right := Direction(r.1, r.0);
      r := IsJoyStickMoved(left.current, leftInput);
      left := Direction(r.1, r.0);
    }
  }
}
