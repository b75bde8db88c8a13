/**
  `src/OpenXRApi.cpp`: the first C++ port of the OpenXR layer. Its
  singleton release, `xr_result`, `isExtensionSupported` and
  `suggestActions` are the ones of `OpenXRCommon`; what differs is the
  use count of a new singleton, the swapchain format rule and
  `render_openxr`, which submits each frame once both eyes have been
  handled.
 */
module LegacyOpenXRApi {
  import opened OpenXRCommon

  /**
    `openxr_get_api` as written in this version: a new object comes from
    `new OpenXRApi()`, but neither the constructor nor the member
    declaration sets `use_count`, so its count is whatever the storage
    held (`heldCount`). The intended get is `OpenXRCommon.AfterGet`, with
    count 1 as the later `src/openxr/OpenXRApi.h` initialises it.
   */
  function AfterGetAsWritten(s: Singleton, heldCount: int): (t: Singleton)
    ensures s.Live? ==> t == AfterGet(s, true)
    ensures s.Released? ==> t == Live(heldCount)
  {
    match s
    case Live(n) => Live(n + 1)
    case Released => Live(heldCount)
  }

  /**
    With a stale count of 2, the single user's release leaves the object
    alive, where the intended get and release delete it.
   */
  lemma StaleCountOutlivesRelease()
    ensures Releases(AfterGetAsWritten(Released, 2), 1) == Live(1)
    ensures Releases(AfterGet(Released, true), 1) == Released
  {
  }

  const GL_SRGB8_ALPHA8: int := 0x8C43
  const XR_SESSION_STATE_STOPPING: int := 6

  /**
    The format loop of `initialiseSwapChains` with `SRGB_SWAPCHAIN` set: it
    starts from the first format and takes sRGB wherever it appears.
   */
  method ChooseSwapchainFormat(formats: seq<int>) returns (formatToUse: int)
    requires formats != []
    ensures GL_SRGB8_ALPHA8 in formats ==> formatToUse == GL_SRGB8_ALPHA8
    ensures GL_SRGB8_ALPHA8 !in formats ==> formatToUse == formats[0]
  {
    formatToUse := formats[0];
    var i := 0;
    while i < |formats|
      invariant 0 <= i <= |formats|
      invariant formatToUse == if GL_SRGB8_ALPHA8 in formats[..i] then GL_SRGB8_ALPHA8 else formats[0]
    {
      assert formats[..i + 1] == formats[..i] + [formats[i]];
      if formats[i] == GL_SRGB8_ALPHA8 {
        formatToUse := formats[i];
      }
      i := i + 1;
    }
    assert formats[..i] == formats;
  }

  /** What one `render_openxr` call hands back to the runtime. */
  datatype RenderOutcome = RenderOutcome(
    /** `xrReleaseSwapchainImage` was called for this eye. */
    released: bool,
    /** `xrEndFrame` was called, with this many layers. */
    endedWithLayers: int)

  const NO_END_FRAME: int := -1

  /**
    `render_openxr` for one eye. Nothing happens unless running and before
    `STOPPING`. When the runtime says not to render, an external texture is
    released and the eye-1 call ends the frame with zero layers; otherwise
    the texture is acquired and copied (unless Godot rendered into it),
    released, and the eye-1 call ends the frame with the projection layer.
    A failing acquire or release returns at once.
   */
  function RenderOpenXR(running: bool, state: int, shouldRender: bool, hasExternalTextureSupport: bool,
                        eye: int, acquireResult: int, releaseResult: int): (r: RenderOutcome)
    ensures !running || state >= XR_SESSION_STATE_STOPPING ==> r == RenderOutcome(false, NO_END_FRAME)
    ensures r.endedWithLayers != NO_END_FRAME ==> eye == 1
    ensures r.endedWithLayers != NO_END_FRAME ==> r.endedWithLayers == if shouldRender then 1 else 0
    ensures !shouldRender ==> (r.released <==> running && state < XR_SESSION_STATE_STOPPING && hasExternalTextureSupport)
    ensures running && state < XR_SESSION_STATE_STOPPING && eye == 1 && XrSucceeded(releaseResult)
            && (shouldRender && !hasExternalTextureSupport ==> XrSucceeded(acquireResult))
            ==> r.endedWithLayers != NO_END_FRAME
  {
    if !running || state >= XR_SESSION_STATE_STOPPING then RenderOutcome(false, NO_END_FRAME)
    else if !shouldRender then
      if hasExternalTextureSupport && !XrResult(releaseResult) then RenderOutcome(true, NO_END_FRAME)
      else RenderOutcome(hasExternalTextureSupport, if eye == 1 then 0 else NO_END_FRAME)
    else if !hasExternalTextureSupport && !XrResult(acquireResult) then RenderOutcome(false, NO_END_FRAME)
    else if !XrResult(releaseResult) then RenderOutcome(true, NO_END_FRAME)
    else RenderOutcome(true, if eye == 1 then 1 else NO_END_FRAME)
  }
}
