/**
  `src/ARVRInterface.cpp`: the GDNative ARVR interface of the OpenXR
  plugin. Its data holds a pointer to the shared `OpenXRApi` object, taken
  with `openxr_get_api` on `initialize` and given back on `uninitialize`;
  Godot's eye numbers (0 for the head, 1 and 2 for the left and right
  eye) are translated into OpenXR view indices.
 */
module ArvrInterfaceOpenXR {
  import opened Wrappers
  import opened OpenXRCommon
  import opened GodotCalls
  import opened OpenXRApiCpp

  /** `godot_arvr_get_capabilities`: stereo output to an external device. */
  function Capabilities(): (caps: int)
    ensures HasCapability(caps, ARVR_STEREO) && HasCapability(caps, ARVR_EXTERNAL)
    ensures !HasCapability(caps, ARVR_MONO) && !HasCapability(caps, ARVR_AR)
  {
    ARVR_STEREO + ARVR_EXTERNAL
  }

  /** `arvr_data_struct`. */
  class ArvrData {
    var openxrApi: OpenXRApi?
    var hasExternalTextureSupport: bool

    /**
      `godot_arvr_constructor`: no API object yet. The allocation leaves
      `has_external_texture_support` as it found it, here `initialSupport`.
     */
    constructor (initialSupport: bool)
      ensures openxrApi == null && hasExternalTextureSupport == initialSupport
    {
      openxrApi := null;
      hasExternalTextureSupport := initialSupport;
    }

    /** The pointer, when set, is the shared object. */
    predicate Holds(registry: ApiSingleton)
      reads this, registry
    {
      openxrApi == null || openxrApi == registry.singleton
    }

    /** `godot_arvr_is_initialized`: an API object is held and it is initialised. */
    function IsInitialized(): (r: bool)
      reads this, openxrApi
      ensures r <==> openxrApi != null && openxrApi.initialised
    {
      if openxrApi == null then false else openxrApi.initialised
    }

    /**
      `godot_arvr_initialize`: the shared object is taken once, then
      initialised; the answer is whether it is initialised, which it
      already is when some other user initialised it before.
     */
    method Initialize(registry: ApiSingleton, defaultActionSetsJson: string, defaultInteractionProfilesJson: string,
                      stepsSucceeded: bool) returns (ret: bool)
      requires Holds(registry)
      modifies this, registry, registry.singleton
      ensures Holds(registry) && openxrApi != null
      ensures old(openxrApi) == null ==> registry.State() == AfterGet(old(registry.State()), true)
      ensures old(openxrApi) != null ==> openxrApi == old(openxrApi) && registry.State() == old(registry.State())
      ensures ret == IsInitialized()
      ensures ret <==> stepsSucceeded || old(registry.singleton != null && registry.singleton.initialised)
    {
      ret := false;
      if openxrApi == null {
        openxrApi := registry.OpenXRGetApi(defaultActionSetsJson, defaultInteractionProfilesJson);
      }
      if openxrApi != null {
        var _ := openxrApi.Initialize(stepsSucceeded);
        ret := openxrApi.initialised;
      }
    }

    /**
      `godot_arvr_uninitialize` (also run by `godot_arvr_destructor`): a
      held object is uninitialised and released, and the pointer cleared.
      When other users still hold the object it survives, uninitialised.
     */
    method Uninitialize(registry: ApiSingleton)
      requires Holds(registry)
      modifies this, registry, registry.singleton
      ensures openxrApi == null && !IsInitialized() && Holds(registry)
      ensures old(openxrApi) != null ==> registry.State() == AfterRelease(old(registry.State()))
      ensures old(openxrApi) != null && registry.singleton != null ==> !registry.singleton.initialised
      ensures old(openxrApi) == null ==> registry.singleton == old(registry.singleton) && registry.State() == old(registry.State())
    {
      if openxrApi != null {
        var _ := openxrApi.Uninitialize();
        registry.OpenXRReleaseApi();
        openxrApi := null;
      }
    }
  }

  /** Where the transform for one of Godot's eyes comes from. */
  datatype EyeTransform = HeadCenter | ViewTransform(view: int) | DefaultPosition

  /**
    `godot_arvr_get_transform_for_eye`: eye 0 is the head centre, eyes 1
    and 2 the views 0 and 1; without an API object, when the look-up fails
    (`lookupOk` false) and for any other eye there is the default position.
   */
  function TransformForEye(hasApi: bool, eye: int, lookupOk: bool): (t: EyeTransform)
    ensures t == HeadCenter <==> hasApi && lookupOk && eye == 0
    ensures t.ViewTransform? <==> hasApi && lookupOk && (eye == 1 || eye == 2)
    ensures t.ViewTransform? ==> t.view == eye - 1
  {
    if !hasApi then DefaultPosition
    else if eye == 0 then (if lookupOk then HeadCenter else DefaultPosition)
    else if eye == 1 then (if lookupOk then ViewTransform(0) else DefaultPosition)
    else if eye == 2 then (if lookupOk then ViewTransform(1) else DefaultPosition)
    else DefaultPosition
  }

  /** `godot_arvr_fill_projection_for_eye`: view 0 for eye 1 and view 1 for every other eye. */
  function ProjectionView(hasApi: bool, eye: int): (view: Option<int>)
    ensures view.Some? <==> hasApi
    ensures view.Some? ==> (view.value == 0 <==> eye == 1) && 0 <= view.value <= 1
  {
    if !hasApi then None else if eye == 1 then Some(0) else Some(1)
  }

  /**
    `godot_arvr_commit_for_eye` and `godot_arvr_get_external_texture_for_eye`:
    with an API object, the eye is passed on as the zero-based view `eye - 1`.
   */
  function ApiEye(hasApi: bool, eye: int): (view: Option<int>)
    ensures view.Some? <==> hasApi
    ensures view.Some? ==> view.value + 1 == eye
  {
    if hasApi then Some(eye - 1) else None
  }

  /** For both stereo eyes the transform, the projection and the rendered view use the same view index. */
  lemma EyeViewsAgree(eye: int)
    requires eye == 1 || eye == 2
    ensures TransformForEye(true, eye, true) == ViewTransform(ProjectionView(true, eye).value)
    ensures ApiEye(true, eye) == ProjectionView(true, eye)
  {
  }
}
