/**
  Logic that the three generations of the plugin's OpenXR layer share
  (`src/OXRCalls.c`, `src/OpenXRApi.cpp` and `src/openxr/OpenXRApi.cpp`):
  `XR_SUCCEEDED`, the reference-counted singleton behind
  `openxr_get_api`/`openxr_release_api`, the exact-name search over an
  enumerated list, the maximum of the per-view swapchain lengths, and the
  two-hands-per-action layout of suggested bindings.
 */
module OpenXRCommon {

  /** `XR_SUCCEEDED`: success codes are the non-negative `XrResult` values. */
  predicate XrSucceeded(result: int)
  {
    result >= 0
  }

  const XR_SUCCESS: int := 0
  const XR_EVENT_UNAVAILABLE: int := 4
  const XR_ERROR_VALIDATION_FAILURE: int := -1

  /** `xr_result`: whether the call succeeded; a failure is only logged. */
  function XrResult(result: int): (ok: bool)
    ensures ok <==> XrSucceeded(result)
    ensures result == XR_SUCCESS || result == XR_EVENT_UNAVAILABLE ==> ok
    ensures result == XR_ERROR_VALIDATION_FAILURE ==> !ok
  {
    result >= 0
  }

  // ---------------------------------------------------------------------
  // Reference-counted singleton

  /** The static singleton pointer: null, or one object with its `use_count`. */
  datatype Singleton = Released | Live(useCount: int)

  /** Every live object has been handed out at least once. */
  predicate ValidSingleton(s: Singleton)
  {
    s.Live? ==> s.useCount >= 1
  }

  /**
    `openxr_get_api`/`openxr_get_data`: an existing object's use count goes
    up by one; otherwise a new object is made with use count 1, provided
    that `created` (allocation and initialisation succeeded).
   */
  function AfterGet(s: Singleton, created: bool): (t: Singleton)
    ensures ValidSingleton(s) ==> ValidSingleton(t)
    ensures s.Live? ==> t.Live? && t.useCount == s.useCount + 1
    ensures s.Released? ==> (t.Live? <==> created) && (t.Live? ==> t.useCount == 1)
  {
    match s
    case Live(n) => Live(n + 1)
    case Released => if created then Live(1) else Released
  }

  /**
    `openxr_release_api`/`openxr_release_data`: a count above one goes down
    by one, the last user deletes the object and nulls the pointer, and a
    release with no object does nothing.
   */
  function AfterRelease(s: Singleton): (t: Singleton)
    ensures ValidSingleton(s) ==> ValidSingleton(t)
    ensures s.Released? ==> t == Released
    ensures s.Live? ==> (t.Live? <==> s.useCount > 1)
    ensures t.Live? ==> t.useCount == s.useCount - 1
  {
    match s
    case Released => Released
    case Live(n) => if n > 1 then Live(n - 1) else Released
  }

  /** `k` successful gets in a row. */
  function Gets(s: Singleton, k: nat): Singleton
  {
    if k == 0 then s else AfterGet(Gets(s, k - 1), true)
  }

  /** `k` releases in a row. */
  function Releases(s: Singleton, k: nat): Singleton
    decreases k
  {
    if k == 0 then s else Releases(AfterRelease(s), k - 1)
  }

  lemma {:induction false} GetsCount(s: Singleton, k: nat)
    requires ValidSingleton(s)
    ensures s.Live? ==> Gets(s, k) == Live(s.useCount + k)
    ensures s.Released? ==> Gets(s, k) == if k == 0 then Released else Live(k)
  {
    if k > 0 {
      GetsCount(s, k - 1);
    }
  }

  /** An object with use count `n` survives exactly `n - 1` releases. */
  lemma {:induction false} ReleasesCount(n: int, k: nat)
    requires n >= 1
    ensures k < n ==> Releases(Live(n), k) == Live(n - k)
    ensures k >= n ==> Releases(Live(n), k) == Released
  {
    if k > 0 {
      if n > 1 {
        ReleasesCount(n - 1, k - 1);
      } else {
        ReleasedStays(k - 1);
      }
    }
  }

  lemma {:induction false} ReleasedStays(k: nat)
    ensures Releases(Released, k) == Released
  {
    if k > 0 {
      ReleasedStays(k - 1);
    }
  }

  /** Balanced use: `k` gets followed by `k` releases restore the singleton, whatever it was. */
  lemma BalancedUse(s: Singleton, k: nat)
    requires ValidSingleton(s)
    ensures Releases(Gets(s, k), k) == s
  {
    GetsCount(s, k);
    match s
    case Live(n) =>
      ReleasesCount(n + k, k);
    case Released =>
      if k > 0 {
        ReleasesCount(k, k);
      }
  }

  // ---------------------------------------------------------------------
  // Enumerated lists

  /**
    `isExtensionSupported`: a linear scan of the enumerated entries that
    stops at the first one equal to the name (`strcmp` equality); the same
    scan finds a view configuration or reference space type.
   */
  method Contains<T(==)>(items: seq<T>, item: T) returns (found: bool)
    ensures found <==> item in items
  {
    var i := 0;
    while i < |items|
      invariant 0 <= i <= |items|
      invariant item !in items[..i]
    {
      if items[i] == item {
        return true;
      }
      i := i + 1;
    }
    assert items[..i] == items;
    return false;
  }

  /**
    `isViewConfigSupported`: both enumeration calls must succeed, and then
    the type must be among the enumerated ones; any failure answers false.
   */
  method IsEnumeratedSupported(countResult: int, enumerateResult: int, items: seq<int>, item: int)
    returns (supported: bool)
    ensures supported <==> XrSucceeded(countResult) && XrSucceeded(enumerateResult) && item in items
  {
    if !XrResult(countResult) {
      return false;
    }
    if !XrResult(enumerateResult) {
      return false;
    }
    supported := Contains(items, item);
  }

  /**
    The loop that sizes the image arrays: the largest of the per-view
    swapchain lengths, starting from 0.
   */
  method MaxSwapchainLength(lengths: seq<nat>) returns (maxLength: nat)
    ensures forall i :: 0 <= i < |lengths| ==> lengths[i] <= maxLength
    ensures (lengths == [] && maxLength == 0) || maxLength in lengths
  {
    maxLength := 0;
    var i := 0;
    while i < |lengths|
      invariant 0 <= i <= |lengths|
      invariant forall j :: 0 <= j < i ==> lengths[j] <= maxLength
      invariant (i == 0 && maxLength == 0) || maxLength in lengths[..i]
    {
      if lengths[i] > maxLength {
        maxLength := lengths[i];
      }
      i := i + 1;
    }
    assert lengths[..i] == lengths;
  }

  // ---------------------------------------------------------------------
  // Suggested bindings

  /** `HANDCOUNT`: left and right. */
  const HANDCOUNT: int := 2

  /** One `XrActionSuggestedBinding`: an action handle and a binding path. */
  datatype Binding = Binding(action: int, path: int)

  /** Binding `k` pairs action `k / 2` with that action's path for hand `k % 2`. */
  predicate BindingLayout(actions: seq<int>, paths: seq<seq<int>>, bindings: seq<Binding>)
    requires |paths| == |actions|
    requires forall a :: 0 <= a < |paths| ==> |paths[a]| >= HANDCOUNT
  {
    |bindings| == |actions| * HANDCOUNT
    && forall k :: 0 <= k < |bindings| ==>
         bindings[k] == Binding(actions[k / HANDCOUNT], paths[k / HANDCOUNT][k % HANDCOUNT])
  }

  /**
    The nested loops of `suggestActions`/`_suggestActions`: for every action
    `a` and hand `h`, `bindings[a * HANDCOUNT + h]` gets `actions[a]` and
    `paths[a][h]`.
   */
  method SuggestedBindings(actions: seq<int>, paths: seq<seq<int>>) returns (bindings: seq<Binding>)
    requires |paths| == |actions|
    requires forall a :: 0 <= a < |paths| ==> |paths[a]| >= HANDCOUNT
    ensures BindingLayout(actions, paths, bindings)
    ensures forall a, h :: 0 <= a < |actions| && 0 <= h < HANDCOUNT ==>
              bindings[a * HANDCOUNT + h] == Binding(actions[a], paths[a][h])
  {
    var out := new Binding[|actions| * HANDCOUNT](_ => Binding(0, 0));
    var a := 0;
    while a < |actions|
      invariant 0 <= a <= |actions|
      invariant forall k :: 0 <= k < a * HANDCOUNT ==>
                  out[k] == Binding(actions[k / HANDCOUNT], paths[k / HANDCOUNT][k % HANDCOUNT])
    {
      var h := 0;
      while h < HANDCOUNT
        invariant 0 <= h <= HANDCOUNT
        invariant forall k :: 0 <= k < a * HANDCOUNT + h ==>
                    out[k] == Binding(actions[k / HANDCOUNT], paths[k / HANDCOUNT][k % HANDCOUNT])
      {
        var index := a * HANDCOUNT + h;
        out[index] := Binding(actions[a], paths[a][h]);
        h := h + 1;
      }
      a := a + 1;
    }
    bindings := out[..];
    forall a, h | 0 <= a < |actions| && 0 <= h < HANDCOUNT
      ensures bindings[a * HANDCOUNT + h] == Binding(actions[a], paths[a][h])
    {
      var k := a * HANDCOUNT + h;
      assert k / HANDCOUNT == a && k % HANDCOUNT == h;
    }
  }

  /**
    As written, `suggestActions` re-tests the result of the earlier
    `xrStringToPath` call after `xrSuggestInteractionProfileBindings`, whose
    own result is discarded: the answer depends on the path look-up alone.
   */
  function SuggestActionsAnswerAsWritten(pathResult: int, suggestResult: int): (ok: bool)
    ensures ok <==> XrSucceeded(pathResult)
  {
    XrResult(pathResult)
  }

  /** A rejected suggestion is reported as a success. */
  lemma SuggestFailureReportedAsSuccess()
    ensures SuggestActionsAnswerAsWritten(XR_SUCCESS, XR_ERROR_VALIDATION_FAILURE)
    ensures !SuggestActionsAnswer(XR_SUCCESS, XR_ERROR_VALIDATION_FAILURE)
  {
  }

  /** The intended answer: both the path look-up and the suggestion succeeded. */
  function SuggestActionsAnswer(pathResult: int, suggestResult: int): (ok: bool)
    ensures ok <==> XrSucceeded(pathResult) && XrSucceeded(suggestResult)
    ensures ok ==> SuggestActionsAnswerAsWritten(pathResult, suggestResult)
  {
    XrResult(pathResult) && XrResult(suggestResult)
  }

  /**
    `suggestActions` with the intended result check: no bindings are built
    when the profile path cannot be looked up; otherwise the bindings have
    the two-hand layout and the answer is that of the suggestion call.
   */
  method SuggestActions(pathResult: int, actions: seq<int>, paths: seq<seq<int>>, suggestResult: int)
    returns (ok: bool, bindings: seq<Binding>)
    requires |paths| == |actions|
    requires forall a :: 0 <= a < |paths| ==> |paths[a]| >= HANDCOUNT
    ensures ok == SuggestActionsAnswer(pathResult, suggestResult)
    ensures !XrSucceeded(pathResult) ==> bindings == []
    ensures XrSucceeded(pathResult) ==> BindingLayout(actions, paths, bindings)
  {
    if !XrResult(pathResult) {
      return false, [];
    }
    bindings := SuggestedBindings(actions, paths);
    ok := XrResult(suggestResult);
  }
}
