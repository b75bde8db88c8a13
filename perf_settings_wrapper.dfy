/**
  `src/openxr/extensions/xr_ext_performance_settings_extension_wrapper.cpp`:
  the wrapper of `XR_EXT_performance_settings`. It remembers a CPU and a GPU
  performance level, sends a level to the runtime only while the extension
  is enabled, and keeps a new level only when the runtime accepted it.
  Every `xrPerfSettingsSetPerformanceLevelEXT` call is recorded in `sent`.
 */
module PerfSettingsWrapper {
  import opened OpenXRCommon
  import opened XrPerfSettingsLevel

  const XR_PERF_SETTINGS_DOMAIN_CPU_EXT: int := 1
  const XR_PERF_SETTINGS_DOMAIN_GPU_EXT: int := 2
  const XR_TYPE_EVENT_DATA_PERF_SETTINGS_EXT: int := 1000015000

  /** `DEFAULT_PERF_SETTINGS_LEVEL`: sustained high. */
  const DEFAULT_PERF_SETTINGS_LEVEL: int := SustainedHigh.Code()

  /** One `xrPerfSettingsSetPerformanceLevelEXT(session, domain, level)` call. */
  datatype LevelCall = LevelCall(domain: int, level: int)

  /** `on_event_polled`: the event is consumed exactly when it is a performance-settings event. */
  function OnEventPolled(eventType: int): (consumed: bool)
    ensures consumed <==> eventType == XR_TYPE_EVENT_DATA_PERF_SETTINGS_EXT
  {
    match eventType
    case 1000015000 => true
    case _ => false
  }

  class PerformanceSettingsWrapper {
    /** `performance_settings_ext`: requested and enabled. */
    var extensionEnabled: bool
    var cpuLevel: int
    var gpuLevel: int
    /** The level calls sent to the runtime, oldest first. */
    var sent: seq<LevelCall>

    /** The member initialisers: disabled, both levels at the default, nothing sent. */
    constructor ()
      ensures !extensionEnabled && cpuLevel == DEFAULT_PERF_SETTINGS_LEVEL && gpuLevel == DEFAULT_PERF_SETTINGS_LEVEL
      ensures sent == []
    {
      extensionEnabled := false;
      cpuLevel := DEFAULT_PERF_SETTINGS_LEVEL;
      gpuLevel := DEFAULT_PERF_SETTINGS_LEVEL;
      sent := [];
    }

    /**
      The constructor hands `&performance_settings_ext` to the OpenXR layer,
      which writes whether the runtime offers the extension.
     */
    method OnExtensionRequested(available: bool)
      modifies this`extensionEnabled
      ensures extensionEnabled == available
    {
      extensionEnabled := available;
    }

    /** `on_instance_initialized`: a failure to load the entry point disables the extension. */
    method OnInstanceInitialized(loadResult: int)
      modifies this`extensionEnabled
      ensures extensionEnabled <==> old(extensionEnabled) && XrSucceeded(loadResult)
    {
      if extensionEnabled {
        if !XrResult(loadResult) {
          extensionEnabled := false;
        }
      }
    }

    /**
      `update_perf_settings_level`: false with no call sent while the
      extension is disabled; otherwise one call is sent and the answer is
      whether the runtime accepted it.
     */
    method UpdatePerfSettingsLevel(domain: int, level: int, callResult: int) returns (ok: bool)
      modifies this`sent
      ensures ok <==> extensionEnabled && XrSucceeded(callResult)
      ensures sent == if extensionEnabled then old(sent) + [LevelCall(domain, level)] else old(sent)
    {
      if !extensionEnabled {
        return false;
      }
      sent := sent + [LevelCall(domain, level)];
      if !XrResult(callResult) {
        return false;
      }
      return true;
    }

    /** `set_cpu_level`: the level is kept only when the runtime accepted it; the GPU level is untouched. */
    method SetCpuLevel(level: int, callResult: int) returns (ok: bool)
      modifies this`cpuLevel, this`sent
      ensures ok <==> extensionEnabled && XrSucceeded(callResult)
      ensures cpuLevel == if ok then level else old(cpuLevel)
      ensures sent == if extensionEnabled then old(sent) + [LevelCall(XR_PERF_SETTINGS_DOMAIN_CPU_EXT, level)] else old(sent)
    {
      ok := UpdatePerfSettingsLevel(XR_PERF_SETTINGS_DOMAIN_CPU_EXT, level, callResult);
      if ok {
        cpuLevel := level;
      }
    }

    /** `set_gpu_level`: as `set_cpu_level`, for the GPU domain. */
    method SetGpuLevel(level: int, callResult: int) returns (ok: bool)
      modifies this`gpuLevel, this`sent
      ensures ok <==> extensionEnabled && XrSucceeded(callResult)
      ensures gpuLevel == if ok then level else old(gpuLevel)
      ensures sent == if extensionEnabled then old(sent) + [LevelCall(XR_PERF_SETTINGS_DOMAIN_GPU_EXT, level)] else old(sent)
    {
      ok := UpdatePerfSettingsLevel(XR_PERF_SETTINGS_DOMAIN_GPU_EXT, level, callResult);
      if ok {
        gpuLevel := level;
      }
    }

    /**
      `on_state_ready`: while enabled, the stored CPU and then GPU level
      are sent again; whatever the runtime answers, the stored levels stay.
     */
    method OnStateReady(cpuResult: int, gpuResult: int)
      modifies this`cpuLevel, this`gpuLevel, this`sent
      ensures cpuLevel == old(cpuLevel) && gpuLevel == old(gpuLevel)
      ensures sent == if extensionEnabled
                      then old(sent) + [LevelCall(XR_PERF_SETTINGS_DOMAIN_CPU_EXT, old(cpuLevel)),
                                        LevelCall(XR_PERF_SETTINGS_DOMAIN_GPU_EXT, old(gpuLevel))]
                      else old(sent)
    {
      if extensionEnabled {
        var _ := SetCpuLevel(cpuLevel, cpuResult);
        var _ := SetGpuLevel(gpuLevel, gpuResult);
      }
    }

    /** `cleanup` (also `on_instance_destroyed`): disabled, and both levels back to the default. */
    method Cleanup()
      modifies this`extensionEnabled, this`cpuLevel, this`gpuLevel
      ensures !extensionEnabled && cpuLevel == DEFAULT_PERF_SETTINGS_LEVEL && gpuLevel == DEFAULT_PERF_SETTINGS_LEVEL
    {
      extensionEnabled := false;
      cpuLevel := DEFAULT_PERF_SETTINGS_LEVEL;
      gpuLevel := DEFAULT_PERF_SETTINGS_LEVEL;
    }
  }
}
