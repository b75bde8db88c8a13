/**
  What the `OpenXRPose` nodes of `src/gdclasses/` and `src/openxr/` share:
  their default action and path, the splitting of an action string
  "set/action" with Godot's `String::split`, and the cached lookup of
  `check_action_and_path`, which remembers the action and the `XrPath` it
  found and stops trying once a lookup has failed.
 */
module PoseLookup {
  import opened Wrappers
  import opened OpenXRCommon

  const XR_NULL_PATH: int := 0

  /** The defaults of the constructor. */
  const DEFAULT_ACTION: string := "SkeletonBase"
  const LEFT_HAND_PATH: string := "/user/hand/left"
  const RIGHT_HAND_PATH: string := "/user/hand/right"

  /** Godot's `String::split(sep)` with empty parts kept: at least one part, none holding the separator. */
  function Split(s: string, sep: char): (parts: seq<string>)
    ensures |parts| >= 1
    ensures forall k :: 0 <= k < |parts| ==> sep !in parts[k]
  {
    if s == [] then [""]
    else
      var rest := Split(s[1..], sep);
      if s[0] == sep then [""] + rest
      else [[s[0]] + rest[0]] + rest[1..]
  }

  /** The split has one more part than the string has separators. */
  lemma {:induction false} SplitCount(s: string, sep: char)
    ensures |Split(s, sep)| == multiset(s)[sep] + 1
  {
    if s != [] {
      SplitCount(s[1..], sep);
      assert s == [s[0]] + s[1..];
      assert multiset(s) == multiset{s[0]} + multiset(s[1..]);
    }
  }

  /** The parts joined back with the separator. */
  function Join(parts: seq<string>, sep: char): string
    requires parts != []
  {
    if |parts| == 1 then parts[0] else parts[0] + [sep] + Join(parts[1..], sep)
  }

  /** Joining the parts of a split gives back the string. */
  lemma {:induction false} JoinSplit(s: string, sep: char)
    ensures Join(Split(s, sep), sep) == s
  {
    if s != [] {
      var rest := Split(s[1..], sep);
      var parts := Split(s, sep);
      JoinSplit(s[1..], sep);
      assert s == [s[0]] + s[1..];
      if s[0] == sep {
        assert parts == [""] + rest;
        assert parts[1..] == rest;
      } else {
        assert parts == [[s[0]] + rest[0]] + rest[1..];
        if |rest| > 1 {
          assert parts[1..] == rest[1..];
          assert Join(rest, sep) == rest[0] + [sep] + Join(rest[1..], sep);
        }
      }
    }
  }

  /** Splitting two separator-free parts joined by the separator gives those two parts. */
  lemma {:induction false} SplitTwo(a: string, b: string, sep: char)
    requires sep !in a && sep !in b
    ensures Split(a + [sep] + b, sep) == [a, b]
  {
    if a == [] {
      assert [sep] + b == [sep] + b;
      assert ([sep] + b)[1..] == b;
      assert ([] + [sep] + b)[1..] == b;
      SplitNone(b, sep);
    } else {
      SplitTwo(a[1..], b, sep);
      assert (a + [sep] + b)[1..] == a[1..] + [sep] + b;
      assert a == [a[0]] + a[1..];
    }
  }

  /** A string without the separator splits into itself. */
  lemma {:induction false} SplitNone(s: string, sep: char)
    requires sep !in s
    ensures Split(s, sep) == [s]
  {
    if s != [] {
      SplitNone(s[1..], sep);
      assert s == [s[0]] + s[1..];
    }
  }

  /** An action string splits into exactly two parts when it is two separator-free names around one separator. */
  lemma SplitsInTwo(s: string, sep: char, a: string, b: string)
    ensures Split(s, sep) == [a, b] <==> s == a + [sep] + b && sep !in a && sep !in b
  {
    if Split(s, sep) == [a, b] {
      JoinSplit(s, sep);
    }
    if s == a + [sep] + b && sep !in a && sep !in b {
      SplitTwo(a, b, sep);
    }
  }

  /** An action found by `check_action_and_path`: the action set and the action within it. */
  datatype ActionRef = ActionRef(actionSet: string, action: string)

  /**
    The lookup of `check_action_and_path`: the action string has to split
    on '/' into exactly two parts, the first naming an action set and the
    second an action of that set. `actions` maps each action set's name to
    the names of its actions.
   */
  function ResolveAction(action: string, actions: map<string, set<string>>): (r: Option<ActionRef>)
    ensures r.Some? ==> r.value.actionSet in actions && r.value.action in actions[r.value.actionSet]
  {
    var parts := Split(action, '/');
    if |parts| != 2 then None
    else if parts[0] !in actions then None
    else if parts[1] !in actions[parts[0]] then None
    else Some(ActionRef(parts[0], parts[1]))
  }

  /** An action string resolves to a set and an action exactly when it is "set/action" with both names known and free of slashes. */
  lemma ResolveActionIff(action: string, actions: map<string, set<string>>, r: ActionRef)
    ensures ResolveAction(action, actions) == Some(r) <==>
              action == r.actionSet + "/" + r.action && '/' !in r.actionSet && '/' !in r.action
              && r.actionSet in actions && r.action in actions[r.actionSet]
  {
    SplitsInTwo(action, '/', r.actionSet, r.action);
    assert r.actionSet + "/" + r.action == r.actionSet + ['/'] + r.action;
  }

  /** The transform a pose node took this frame. */
  datatype PoseSource =
    | NoPose                                  // the node was not moved
    | PalmOf(hand: int)                       // the palm joint of a hand tracker
    | ActionPose(action: ActionRef, path: int) // `get_as_pose` of the cached action and path

  /** The cached state of a pose node: `fail_cache`, `_action` (null is `None`) and `_path`. */
  datatype Cache = Cache(failCache: bool, cachedAction: Option<ActionRef>, cachedPath: int)

  /** The cache of a fresh node and of one whose action or path was just set. */
  const EMPTY_CACHE: Cache := Cache(false, None, XR_NULL_PATH)

  /**
    `check_action_and_path`, as the answer and the new cache. Nothing is
    looked up while there are no action sets, and nothing is tried again
    once a lookup failed. Otherwise a missing action is resolved, then a
    missing path asked of `xrStringToPath` (`pathResult`, `pathValue`);
    either failure sets `fail_cache`.
   */
  function CheckActionAndPath(c: Cache, hasActionSets: bool, action: string, actions: map<string, set<string>>,
                              pathResult: int, pathValue: int): (r: (bool, Cache))
    ensures !hasActionSets || c.failCache ==> r == (false, c)
    ensures r.0 <==> hasActionSets && !c.failCache
                     && (c.cachedAction.Some? || ResolveAction(action, actions).Some?)
                     && (c.cachedPath != XR_NULL_PATH || XrSucceeded(pathResult))
    ensures hasActionSets ==> (r.1.failCache <==> !r.0)
    ensures r.0 ==> r.1.cachedAction.Some? && !r.1.failCache
  {
    if !hasActionSets then (false, c)
    else if c.failCache then (false, c)
    else
      var found := if c.cachedAction.Some? then c.cachedAction else ResolveAction(action, actions);
      if found.None? then (false, c.(failCache := true))
      else if c.cachedPath == XR_NULL_PATH && !XrResult(pathResult) then (false, c.(failCache := true, cachedAction := found))
      else if c.cachedPath == XR_NULL_PATH then (true, c.(cachedAction := found, cachedPath := pathValue))
      else (true, c.(cachedAction := found))
  }

  /** Asking twice in the same frame, with the runtime answering the same, changes nothing more and answers the same. */
  lemma CheckActionAndPathIdempotent(c: Cache, hasActionSets: bool, action: string, actions: map<string, set<string>>,
                                     pathResult: int, pathValue: int)
    ensures var r := CheckActionAndPath(c, hasActionSets, action, actions, pathResult, pathValue);
            CheckActionAndPath(r.1, hasActionSets, action, actions, pathResult, pathValue) == r
  {
  }

  /** Once a lookup failed, every later check answers false and keeps the cache, whatever the runtime and the action sets say. */
  lemma FailedLookupIsSticky(c: Cache, hasActionSets: bool, action: string, actions: map<string, set<string>>,
                             pathResult: int, pathValue: int, later: seq<(bool, map<string, set<string>>, int, int)>)
    requires hasActionSets && !CheckActionAndPath(c, hasActionSets, action, actions, pathResult, pathValue).0
    ensures var failed := CheckActionAndPath(c, hasActionSets, action, actions, pathResult, pathValue).1;
            failed.failCache && CheckedThrough(failed, action, later) == (false, failed)
  {
    var failed := CheckActionAndPath(c, hasActionSets, action, actions, pathResult, pathValue).1;
    StaysFailed(failed, action, later);
  }

  /** Checks one after another, each with the frame's own action sets and runtime answers; the answer of the last. */
  function CheckedThrough(c: Cache, action: string, frames: seq<(bool, map<string, set<string>>, int, int)>): (r: (bool, Cache))
    decreases |frames|
  {
    if frames == [] then (false, c)
    else
      var f := frames[0];
      var step := CheckActionAndPath(c, f.0, action, f.1, f.2, f.3);
      if |frames| == 1 then step else CheckedThrough(step.1, action, frames[1..])
  }

  lemma {:induction false} StaysFailed(c: Cache, action: string, frames: seq<(bool, map<string, set<string>>, int, int)>)
    requires c.failCache
    ensures CheckedThrough(c, action, frames) == (false, c)
    decreases |frames|
  {
    if |frames| > 1 {
      StaysFailed(c, action, frames[1..]);
    }
  }
}
