/**
  `src/gdclasses/XRInterfaceOpenXR.cpp` and `src/gdclasses/OpenXRConfig.cpp`:
  the Godot-facing configuration of the plugin. Both classes hold pointers
  to the OpenXR object and to extension wrappers, any of which may be null,
  and every accessor answers a fixed default when its object is missing.
  The two classes share these accessors, so they are modelled once, over
  the (nullable) objects they read.

  The OpenXR object's `get_view_configuration_type` has no body in the
  source, so its answer is a parameter (`None` when there is no object).
  The refresh-rate, foveation and passthrough wrappers are not part of
  this model: what they would answer is a parameter as well.
 */
module GdConfig {
  import opened Wrappers
  import opened OpenXRCommon
  import Bytes
  import GodotCalls
  import OpenXRApiCpp
  import ColorSpaceWrapper
  import PerfSettingsWrapper

  const XR_VIEW_CONFIGURATION_TYPE_PRIMARY_MONO: int := 1
  const XR_VIEW_CONFIGURATION_TYPE_PRIMARY_STEREO: int := 2

  /** The capability flags of Godot 4's `XRInterface`. */
  const XR_MONO: int := 1
  const XR_STEREO: int := 2
  const XR_QUAD: int := 4
  const XR_VR: int := 8
  const XR_AR: int := 16
  const XR_EXTERNAL: int := 32

  const XR_FOVEATION_DYNAMIC_DISABLED_FB: int := 0
  const XR_FOVEATION_DYNAMIC_LEVEL_ENABLED_FB: int := 1

  /**
    The extension wrappers `_initialize` registers, in its order: swapchain
    update state, foveation, performance settings, colour space, display
    refresh rate, hand tracking and passthrough.
   */
  const INTERFACE_WRAPPERS: seq<OpenXRApiCpp.ExtensionWrapper> := [0, 1, 2, 3, 4, 5, 6]

  // ---------------------------------------------------------------------
  // View configuration

  /** `get_view_config_type`: 0 for mono; stereo, any other type and a missing object all answer 1. */
  function ViewConfigIndex(apiConfigType: Option<int>): (index: int)
    ensures index == 0 || index == 1
    ensures index == 0 <==> apiConfigType == Some(XR_VIEW_CONFIGURATION_TYPE_PRIMARY_MONO)
  {
    match apiConfigType
    case None => 1
    case Some(t) =>
      if t == XR_VIEW_CONFIGURATION_TYPE_PRIMARY_MONO then 0
      else if t == XR_VIEW_CONFIGURATION_TYPE_PRIMARY_STEREO then 1
      else 1
  }

  /** The configuration type `set_view_config_type` passes on: 0 is mono, 1 stereo, anything else nothing. */
  function ViewConfigTypeFor(index: int): (configType: Option<int>)
    ensures configType.Some? <==> index == 0 || index == 1
    ensures configType.Some? ==>
              configType.value == XR_VIEW_CONFIGURATION_TYPE_PRIMARY_MONO || configType.value == XR_VIEW_CONFIGURATION_TYPE_PRIMARY_STEREO
  {
    if index == 0 then Some(XR_VIEW_CONFIGURATION_TYPE_PRIMARY_MONO)
    else if index == 1 then Some(XR_VIEW_CONFIGURATION_TYPE_PRIMARY_STEREO)
    else None
  }

  /** The two supported configurations and their indices correspond one to one. */
  lemma ViewConfigRoundTrip(index: int, configType: int)
    ensures (index == 0 || index == 1) ==> ViewConfigIndex(ViewConfigTypeFor(index)) == index
    ensures configType == XR_VIEW_CONFIGURATION_TYPE_PRIMARY_MONO || configType == XR_VIEW_CONFIGURATION_TYPE_PRIMARY_STEREO ==>
              ViewConfigTypeFor(ViewConfigIndex(Some(configType))) == Some(configType)
  {
  }

  /**
    `set_view_config_type`: what reaches the OpenXR object, if anything.
    Without the object nothing does; a type that reaches it reads back as
    the index it was set from.
   */
  function SetViewConfigType(api: OpenXRApiCpp.OpenXRApi?, index: int): (forwarded: Option<int>)
    ensures forwarded.Some? <==> api != null && (index == 0 || index == 1)
    ensures forwarded.Some? ==> ViewConfigIndex(forwarded) == index
  {
    if api == null then None else ViewConfigTypeFor(index)
  }

  /** `_get_view_count`: one view for mono, two for stereo, any other type and a missing object. */
  function ViewCount(apiConfigType: Option<int>): (n: int)
    ensures n == ViewConfigIndex(apiConfigType) + 1
  {
    match apiConfigType
    case None => 2
    case Some(t) =>
      if t == XR_VIEW_CONFIGURATION_TYPE_PRIMARY_MONO then 1
      else if t == XR_VIEW_CONFIGURATION_TYPE_PRIMARY_STEREO then 2
      else 2
  }

  // ---------------------------------------------------------------------
  // Capabilities and foveation

  /**
    `_get_capabilities`: mono, stereo and AR, and rendering to an external
    device except on Android; never quad or VR.
   */
  function Capabilities(android: bool): (caps: int)
    ensures 0 <= caps < 2 * XR_EXTERNAL
    ensures GodotCalls.HasCapability(caps, XR_MONO) && GodotCalls.HasCapability(caps, XR_STEREO)
    ensures GodotCalls.HasCapability(caps, XR_AR)
    ensures !GodotCalls.HasCapability(caps, XR_QUAD) && !GodotCalls.HasCapability(caps, XR_VR)
    ensures GodotCalls.HasCapability(caps, XR_EXTERNAL) <==> !android
  {
    var ret := XR_MONO + XR_STEREO + XR_AR;
    if android then ret else ret + XR_EXTERNAL
  }

  /** What `set_foveation_level` hands to the foveation wrapper. */
  datatype FoveationCall = FoveationCall(level: int, dynamic: int)

  /**
    `set_foveation_level`: nothing without the foveation wrapper; otherwise
    the level unchanged, and dynamic foveation enabled exactly when asked.
   */
  function SetFoveationLevel(wrapperPresent: bool, level: int, isDynamic: bool): (call: Option<FoveationCall>)
    ensures call.Some? <==> wrapperPresent
    ensures call.Some? ==> call.value.level == level
    ensures call.Some? ==> (call.value.dynamic == XR_FOVEATION_DYNAMIC_LEVEL_ENABLED_FB <==> isDynamic)
    ensures call.Some? ==> (call.value.dynamic == XR_FOVEATION_DYNAMIC_DISABLED_FB <==> !isDynamic)
  {
    if !wrapperPresent then None
    else Some(FoveationCall(level, if isDynamic then XR_FOVEATION_DYNAMIC_LEVEL_ENABLED_FB else XR_FOVEATION_DYNAMIC_DISABLED_FB))
  }

  // ---------------------------------------------------------------------
  // Accessors of the OpenXR object

  /** `keep_3d_linear`: false without the object. */
  function Keep3dLinear(api: OpenXRApiCpp.OpenXRApi?): (linear: bool)
    reads api
    ensures linear <==> api != null && api.keep3dLinear
  {
    if api == null then false else api.keep3dLinear
  }

  /** `get_form_factor`: 0, no form factor, without the object. */
  function FormFactor(api: OpenXRApiCpp.OpenXRApi?): (f: int)
    reads api
    ensures api == null ==> f == 0
    ensures api != null ==> f == api.formFactor
  {
    if api == null then 0 else api.formFactor
  }

  /** `set_form_factor`: passed on to the object, which takes it only before initialisation and only for 1 or 2. */
  method SetFormFactor(api: OpenXRApiCpp.OpenXRApi?, f: int)
    modifies if api != null then {api} else {}
    ensures FormFactor(api) ==
              if api != null && !old(api.initialised)
                 && OpenXRApiCpp.XR_FORM_FACTOR_HEAD_MOUNTED_DISPLAY <= f <= OpenXRApiCpp.XR_FORM_FACTOR_HANDHELD_DISPLAY then f
              else old(FormFactor(api))
    ensures api != null ==> api.initialised == old(api.initialised)
  {
    if api != null {
      api.SetFormFactor(f);
    }
  }

  /** `get_action_sets`: the empty string without the object. */
  function ActionSets(api: OpenXRApiCpp.OpenXRApi?): (json: string)
    reads api
    ensures api == null ==> json == ""
    ensures api != null ==> json == api.actionSetsJson
  {
    if api == null then "" else api.actionSetsJson
  }

  /** `set_action_sets`: passed on to the object, which keeps it only before initialisation. */
  method SetActionSets(api: OpenXRApiCpp.OpenXRApi?, json: string)
    modifies if api != null then {api} else {}
    ensures ActionSets(api) == if api != null && !old(api.initialised) then json else old(ActionSets(api))
    ensures api != null ==> api.initialised == old(api.initialised)
  {
    if api != null {
      api.SetActionSetsJson(json);
    }
  }

  /** `get_interaction_profiles`: the empty string without the object. */
  function InteractionProfiles(api: OpenXRApiCpp.OpenXRApi?): (json: string)
    reads api
    ensures api == null ==> json == ""
    ensures api != null ==> json == api.interactionProfilesJson
  {
    if api == null then "" else api.interactionProfilesJson
  }

  /** `set_interaction_profiles`: passed on to the object, which keeps it only before initialisation. */
  method SetInteractionProfiles(api: OpenXRApiCpp.OpenXRApi?, json: string)
    modifies if api != null then {api} else {}
    ensures InteractionProfiles(api) == if api != null && !old(api.initialised) then json else old(InteractionProfiles(api))
    ensures api != null ==> api.initialised == old(api.initialised)
  {
    if api != null {
      api.SetInteractionProfilesJson(json);
    }
  }

  /** `_is_initialized`: false without the object. */
  function IsInitialized(api: OpenXRApiCpp.OpenXRApi?): (r: bool)
    reads api
    ensures r <==> api != null && api.initialised
  {
    if api == null then false else api.initialised
  }

  /**
    `_initialize`: false without the object. An object not yet initialised
    first gets the seven wrappers registered and is then initialised
    (`stepsSucceeded` stands for everything its `initialize` asks of the
    runtime); the answer is whether it is initialised afterwards.
   */
  method Initialize(api: OpenXRApiCpp.OpenXRApi?, stepsSucceeded: bool) returns (ok: bool)
    modifies if api != null then {api} else {}
    ensures ok == IsInitialized(api)
    ensures api != null && old(api.initialised) ==> ok && api.registeredExtensionWrappers == old(api.registeredExtensionWrappers)
    ensures api != null && !old(api.initialised) ==>
              (ok <==> stepsSucceeded)
              && api.registeredExtensionWrappers == old(api.registeredExtensionWrappers) + set w | w in INTERFACE_WRAPPERS
  {
    if api == null {
      return false;
    }
    if !api.initialised {
      var i := 0;
      while i < |INTERFACE_WRAPPERS|
        invariant 0 <= i <= |INTERFACE_WRAPPERS| && !api.initialised
        invariant api.registeredExtensionWrappers == old(api.registeredExtensionWrappers) + set w | w in INTERFACE_WRAPPERS[..i]
      {
        api.RegisterExtensionWrapper(INTERFACE_WRAPPERS[i]);
        assert INTERFACE_WRAPPERS[..i + 1] == INTERFACE_WRAPPERS[..i] + [INTERFACE_WRAPPERS[i]];
        i := i + 1;
      }
      var initialised := api.Initialize(stepsSucceeded);
    }
    ok := api.initialised;
  }

  /** `_uninitialize`: an initialised object is uninitialised; anything else is left alone. */
  method Uninitialize(api: OpenXRApiCpp.OpenXRApi?)
    modifies if api != null then {api} else {}
    ensures !IsInitialized(api)
  {
    if api != null && api.initialised {
      var _ := api.Uninitialize();
    }
  }

  // ---------------------------------------------------------------------
  // Accessors of the extension wrappers

  /**
    `get_color_space`: 0 without the colour-space wrapper; otherwise the
    wrapper's `uint32_t` colour space cast to `int`.
   */
  function ColorSpace(wrapper: ColorSpaceWrapper.ColorSpaceExtensionWrapper?): (cs: int)
    reads wrapper
    ensures -0x8000_0000 <= cs < 0x8000_0000
    ensures wrapper == null ==> cs == 0
    ensures wrapper != null ==> (cs - wrapper.GetColorSpace()) % Bytes.UINT32_LIMIT == 0
  {
    if wrapper == null then 0 else Bytes.ToInt32(Bytes.ToUint32(wrapper.GetColorSpace()))
  }

  /**
    `set_color_space`: the value is cast to `uint32_t` and passed to the
    wrapper, which keeps it when enabled and the runtime accepts it; a
    32-bit value kept that way reads back unchanged.
   */
  method SetColorSpace(wrapper: ColorSpaceWrapper.ColorSpaceExtensionWrapper?, p: int, setResult: int)
    modifies if wrapper != null then {wrapper} else {}
    ensures wrapper != null && wrapper.extensionEnabled && XrSucceeded(setResult) ==> wrapper.GetColorSpace() == Bytes.ToUint32(p)
    ensures wrapper != null && wrapper.extensionEnabled && XrSucceeded(setResult) && -0x8000_0000 <= p < 0x8000_0000 ==> ColorSpace(wrapper) == p
    ensures !(wrapper != null && wrapper.extensionEnabled && XrSucceeded(setResult)) ==> ColorSpace(wrapper) == old(ColorSpace(wrapper))
    ensures wrapper != null ==> wrapper.extensionEnabled == old(wrapper.extensionEnabled)
  {
    if wrapper != null {
      wrapper.SetColorSpace(Bytes.ToUint32(p), setResult);
      if wrapper.extensionEnabled && XrSucceeded(setResult) && -0x8000_0000 <= p < 0x8000_0000 {
        Bytes.Int32RoundTrip(p);
      }
    }
  }

  /** `get_available_color_spaces`: an empty dictionary without the wrapper, otherwise the wrapper's. */
  method AvailableColorSpaces(wrapper: ColorSpaceWrapper.ColorSpaceExtensionWrapper?,
                              countResult: int, count: int, enumerateResult: int, spaces: seq<int>)
    returns (dict: map<int, string>)
    ensures wrapper == null || !wrapper.extensionEnabled || !XrSucceeded(countResult) || count == 0 || !XrSucceeded(enumerateResult) ==> dict == map[]
    ensures wrapper != null && wrapper.extensionEnabled && XrSucceeded(countResult) && count != 0 && XrSucceeded(enumerateResult) ==>
              dict == ColorSpaceWrapper.SpacesDictionary(spaces)
  {
    if wrapper != null {
      dict := wrapper.GetAvailableColorSpaces(countResult, count, enumerateResult, spaces);
    } else {
      dict := map[];
    }
  }

  /** `get_cpu_level`: sustained high without the performance-settings wrapper. */
  function CpuLevel(perf: PerfSettingsWrapper.PerformanceSettingsWrapper?): (level: int)
    reads perf
    ensures perf == null ==> level == PerfSettingsWrapper.DEFAULT_PERF_SETTINGS_LEVEL
    ensures perf != null ==> level == perf.cpuLevel
  {
    if perf == null then PerfSettingsWrapper.DEFAULT_PERF_SETTINGS_LEVEL else perf.cpuLevel
  }

  /** `get_gpu_level`: sustained high without the performance-settings wrapper. */
  function GpuLevel(perf: PerfSettingsWrapper.PerformanceSettingsWrapper?): (level: int)
    reads perf
    ensures perf == null ==> level == PerfSettingsWrapper.DEFAULT_PERF_SETTINGS_LEVEL
    ensures perf != null ==> level == perf.gpuLevel
  {
    if perf == null then PerfSettingsWrapper.DEFAULT_PERF_SETTINGS_LEVEL else perf.gpuLevel
  }

  /** `set_cpu_level`: passed to the wrapper, which keeps a level the runtime accepts; the GPU level stays. */
  method SetCpuLevel(perf: PerfSettingsWrapper.PerformanceSettingsWrapper?, level: int, callResult: int)
    modifies if perf != null then {perf} else {}
    ensures CpuLevel(perf) == if perf != null && perf.extensionEnabled && XrSucceeded(callResult) then level else old(CpuLevel(perf))
    ensures GpuLevel(perf) == old(GpuLevel(perf))
    ensures perf != null ==> perf.extensionEnabled == old(perf.extensionEnabled)
  {
    if perf != null {
      var ok := perf.SetCpuLevel(level, callResult);
    }
  }

  /** `set_gpu_level`: passed to the wrapper, which keeps a level the runtime accepts; the CPU level stays. */
  method SetGpuLevel(perf: PerfSettingsWrapper.PerformanceSettingsWrapper?, level: int, callResult: int)
    modifies if perf != null then {perf} else {}
    ensures GpuLevel(perf) == if perf != null && perf.extensionEnabled && XrSucceeded(callResult) then level else old(GpuLevel(perf))
    ensures CpuLevel(perf) == old(CpuLevel(perf))
    ensures perf != null ==> perf.extensionEnabled == old(perf.extensionEnabled)
  {
    if perf != null {
      var ok := perf.SetGpuLevel(level, callResult);
    }
  }

  /**
    The getters whose object is outside this model, given what that object
    would answer (`None`: the pointer is null). `get_refresh_rate` answers 0
    and `get_available_refresh_rates` an empty array without the refresh-rate
    wrapper; `get_enabled_extensions` an empty array and
    `get_render_target_size_multiplier` 1 without the OpenXR object;
    `start_passthrough` false without the passthrough wrapper.
   */
  datatype Absent = Absent(refreshRate: real, refreshRates: seq<real>, enabledExtensions: seq<string>,
                           sizeMultiplier: real, passthroughStarted: bool)

  function Defaulted(refreshRate: Option<real>, refreshRates: Option<seq<real>>, enabledExtensions: Option<seq<string>>,
                     sizeMultiplier: Option<real>, passthroughStarted: Option<bool>): (r: Absent)
    ensures refreshRate.Some? ==> r.refreshRate == refreshRate.value
    ensures refreshRates.Some? ==> r.refreshRates == refreshRates.value
    ensures enabledExtensions.Some? ==> r.enabledExtensions == enabledExtensions.value
    ensures sizeMultiplier.Some? ==> r.sizeMultiplier == sizeMultiplier.value
    ensures passthroughStarted.Some? ==> r.passthroughStarted == passthroughStarted.value
    ensures refreshRate.None? ==> r.refreshRate == 0.0
    ensures refreshRates.None? ==> r.refreshRates == []
    ensures enabledExtensions.None? ==> r.enabledExtensions == []
    ensures sizeMultiplier.None? ==> r.sizeMultiplier == 1.0
    ensures passthroughStarted.None? ==> !r.passthroughStarted
  {
    Absent(
      if refreshRate.Some? then refreshRate.value else 0.0,
      if refreshRates.Some? then refreshRates.value else [],
      if enabledExtensions.Some? then enabledExtensions.value else [],
      if sizeMultiplier.Some? then sizeMultiplier.value else 1.0,
      passthroughStarted.Some? && passthroughStarted.value)
  }

  /** With every pointer null, the accessors answer their defaults. */
  lemma NullDefaults()
    ensures !Keep3dLinear(null) && FormFactor(null) == 0 && ActionSets(null) == "" && InteractionProfiles(null) == ""
    ensures !IsInitialized(null) && ViewConfigIndex(None) == 1 && ViewCount(None) == 2
    ensures ColorSpace(null) == 0
    ensures CpuLevel(null) == GpuLevel(null) == PerfSettingsWrapper.DEFAULT_PERF_SETTINGS_LEVEL
    ensures Defaulted(None, None, None, None, None) == Absent(0.0, [], [], 1.0, false)
  {
  }
}
