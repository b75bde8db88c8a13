/**
  `src/ARVRInterface.c`: the ARVR interface of the OpenHMD plugin. Every
  entry point receives the interface's `p_data`, which must be the global
  `openhmd_data` object; any other value is ignored. `initialize` creates
  the OpenHMD context, `uninitialize` closes every device and destroys it,
  and `process` hands each opened controller's buttons to Godot.
 */
module OpenHMDInterface {
  import opened OpenXRCommon
  import opened OpenHMDData
  import opened GodotCalls

  /** `godot_arvr_get_capabilities`: stereo output and nothing else. */
  function Capabilities(): (caps: int)
    ensures HasCapability(caps, ARVR_STEREO)
    ensures !HasCapability(caps, ARVR_MONO) && !HasCapability(caps, ARVR_AR) && !HasCapability(caps, ARVR_EXTERNAL)
  {
    2
  }

  /** `godot_arvr_is_stereo`. */
  function IsStereo(): (stereo: bool)
    ensures stereo == HasCapability(Capabilities(), ARVR_STEREO)
  {
    true
  }

  /** The guard of every entry point: `p_data` is the global data object. */
  predicate Owns(hmd: OpenHMD, pData: OpenHMDDataStruct?)
    reads hmd
  {
    pData != null && pData == hmd.data
  }

  /** `godot_arvr_constructor`: the interface takes a reference to the shared data. */
  method Constructor(hmd: OpenHMD) returns (pData: OpenHMDDataStruct)
    requires hmd.Valid()
    modifies hmd, hmd.data
    ensures hmd.Valid() && Owns(hmd, pData)
    ensures hmd.Count() == AfterGet(old(hmd.Count()), true)
  {
    pData := hmd.GetOpenHMDData();
  }

  /** `godot_arvr_destructor`: the reference is given back only by its owner. */
  method Destructor(hmd: OpenHMD, pData: OpenHMDDataStruct?)
    requires hmd.Valid()
    modifies hmd, hmd.data
    ensures hmd.Valid()
    ensures old(Owns(hmd, pData)) ==> hmd.Count() == AfterRelease(old(hmd.Count()))
    ensures !old(Owns(hmd, pData)) ==> hmd.data == old(hmd.data) && hmd.Count() == old(hmd.Count())
  {
    if pData == null || hmd.data != pData {
    } else {
      hmd.ReleaseOpenHMDData();
    }
  }

  /** `godot_arvr_is_initialized`: the owner's data has an OpenHMD context. */
  function IsInitialized(hmd: OpenHMD, pData: OpenHMDDataStruct?): (r: bool)
    reads hmd, hmd.data
    ensures r <==> Owns(hmd, pData) && hmd.HasContext()
  {
    if pData == null || pData != hmd.data then false else pData.context != NO_HANDLE
  }

  /**
    `godot_arvr_initialize`: only the owner, and only without a context,
    creates a context (`createdContext`) and device settings
    (`createdSettings`), probes the devices (`probe`) and, when auto-init
    is on, opens device 0 as the HMD. The answer is whether a context was
    created, so an interface that is already initialised answers false.
   */
  method Initialize(hmd: OpenHMD, pData: OpenHMDDataStruct?, createdContext: int, createdSettings: int,
                    probe: int, openedDevice: int, horizontalResolution: int, verticalResolution: int)
    returns (ret: bool)
    requires hmd.Valid()
    modifies hmd.data
    ensures hmd.Valid()
    ensures ret <==> old(Owns(hmd, pData) && !hmd.HasContext()) && createdContext != NO_HANDLE
    ensures ret ==> IsInitialized(hmd, pData)
    ensures !old(Owns(hmd, pData) && !hmd.HasContext()) ==> hmd.data == null || hmd.data.Fields() == old(hmd.data.Fields())
    ensures old(Owns(hmd, pData) && !hmd.HasContext()) ==>
              hmd.data.context == createdContext && hmd.data.settings == createdSettings
    ensures ret ==> hmd.DeviceCount() == probe
    ensures ret && old(hmd.data.doAutoInitDeviceZero) ==>
              hmd.data.hmdDevice == (if 0 < probe then openedDevice else NO_HANDLE)
    ensures ret && !old(hmd.data.doAutoInitDeviceZero) ==> hmd.data.hmdDevice == old(hmd.data.hmdDevice)
    ensures old(Owns(hmd, pData) && !hmd.HasContext()) ==>
              var created := old(hmd.data.Fields()).(context := createdContext, settings := createdSettings);
              hmd.data.Fields() ==
                if createdContext == NO_HANDLE then created
                else if !created.doAutoInitDeviceZero then created.(numDevices := probe)
                else if probe <= 0 || openedDevice == NO_HANDLE then created.(numDevices := probe, hmdDevice := NO_HANDLE)
                else created.(numDevices := probe, hmdDevice := openedDevice,
                              width := HalfTruncated(horizontalResolution), height := verticalResolution)
    ensures hmd.Slots() == old(hmd.Slots())
  {
    ret := false;
    if pData == null || pData != hmd.data {
    } else if pData.context == NO_HANDLE {
      pData.context := createdContext;
      pData.settings := createdSettings;
      hmd.ScanForDevices(probe);
      if pData.doAutoInitDeviceZero {
        var _ := hmd.InitHmdDevice(0, openedDevice, horizontalResolution, verticalResolution);
      }
      ret := pData.context != NO_HANDLE;
    }
  }

  /** Every opened controller slot closed; an empty slot is left as it is. */
  function ClosedAll(slots: seq<ControllerTracker>): (r: seq<ControllerTracker>)
    ensures |r| == |slots|
    ensures forall i :: 0 <= i < |r| ==> r[i].device == NO_HANDLE
    ensures forall i :: 0 <= i < |r| ==> r[i] == if slots[i].device != NO_HANDLE then EMPTY_SLOT else slots[i]
  {
    if slots == [] then []
    else
      var rest := ClosedAll(slots[1..]);
      [if slots[0].device != NO_HANDLE then EMPTY_SLOT else slots[0]] + rest
  }

  /** The loop of `godot_arvr_uninitialize` that closes each of the sixteen controller slots in turn. */
  method CloseAllControllers(hmd: OpenHMD)
    requires hmd.Valid() && hmd.HasContext()
    modifies hmd.Table()
    ensures hmd.Valid() && hmd.HasContext()
    ensures hmd.Slots() == ClosedAll(old(hmd.Slots()))
  {
    ghost var before := hmd.Slots();
    ghost var after := ClosedAll(before);
    ghost var table := hmd.data.controllerTrackerMapping;
    var i := 0;
    while i < OPENHMD_MAX_CONTROLLERS
      invariant 0 <= i <= OPENHMD_MAX_CONTROLLERS
      invariant hmd.Valid() && hmd.HasContext() && hmd.data.controllerTrackerMapping == table
      invariant forall j :: 0 <= j < i ==> table[j] == after[j]
      invariant forall j :: i <= j < OPENHMD_MAX_CONTROLLERS ==> table[j] == before[j]
    {
      hmd.CloseControllerDevice(i);
      i := i + 1;
    }
    assert table[..] == after;
  }

  /**
    `godot_arvr_uninitialize`: for the owner with a context, all sixteen
    controller slots, the tracking device and the HMD device are closed,
    and the settings and the context are destroyed; otherwise nothing
    happens.
   */
  method Uninitialize(hmd: OpenHMD, pData: OpenHMDDataStruct?)
    requires hmd.Valid()
    modifies hmd.data, hmd.Table()
    ensures hmd.Valid()
    ensures !IsInitialized(hmd, pData)
    ensures !old(IsInitialized(hmd, pData)) ==>
              (hmd.data == null || hmd.data.Fields() == old(hmd.data.Fields())) && hmd.Slots() == old(hmd.Slots())
    ensures old(IsInitialized(hmd, pData)) ==>
              hmd.data.Fields() == old(hmd.data.Fields()).(context := NO_HANDLE, settings := NO_HANDLE,
                                                           hmdDevice := NO_HANDLE, trackingDevice := NO_HANDLE)
              && hmd.Slots() == ClosedAll(old(hmd.Slots()))
  {
    if pData == null || pData != hmd.data {
    } else if pData.context != NO_HANDLE {
      CloseAllControllers(hmd);
      hmd.CloseTrackingDevice();
      hmd.CloseHmdDevice();
      if pData.settings != NO_HANDLE {
        pData.settings := NO_HANDLE;
      }
      pData.context := NO_HANDLE;
    }
  }

  /** The OpenHMD control hints `process` distinguishes. */
  datatype ControlHint = TriggerClick | Menu | OtherHint

  /** The Godot button for control `j`: a trigger click is 15, the menu 1, anything else `j` itself. */
  function ButtonFor(j: int, hint: ControlHint): (button: int)
    ensures hint == TriggerClick ==> button == 15
    ensures hint == Menu ==> button == 1
    ensures hint == OtherHint ==> button == j
  {
    match hint
    case TriggerClick => 15
    case Menu => 1
    case OtherHint => j
  }

  /** One `godot_arvr_set_controller_button` call. */
  datatype ButtonReport = ButtonReport(button: int, pressed: bool)

  /**
    The control loop of `godot_arvr_process` for one controller: control
    `j` is reported on its button, pressed exactly when its state is
    positive.
   */
  method ControllerButtons(controlCount: int, controlState: seq<real>, controlFunction: seq<ControlHint>)
    returns (reports: seq<ButtonReport>)
    requires controlCount <= |controlState| && controlCount <= |controlFunction|
    ensures |reports| == if controlCount < 0 then 0 else controlCount
    ensures forall j :: 0 <= j < |reports| ==>
              reports[j] == ButtonReport(ButtonFor(j, controlFunction[j]), controlState[j] > 0.0)
  {
    reports := [];
    var j := 0;
    while j < controlCount
      invariant 0 <= j <= (if controlCount < 0 then 0 else controlCount) && |reports| == j
      invariant forall k :: 0 <= k < j ==>
                  reports[k] == ButtonReport(ButtonFor(k, controlFunction[k]), controlState[k] > 0.0)
    {
      var button := 0;
      if controlFunction[j] == TriggerClick {
        button := 15;
      } else if controlFunction[j] == Menu {
        button := 1;
      } else {
        button := j;
      }
      if controlState[j] > 0.0 {
        reports := reports + [ButtonReport(button, true)];
      } else {
        reports := reports + [ButtonReport(button, false)];
      }
      j := j + 1;
    }
  }

  /** The trackers of the slots that hold a device, in slot order. */
  function TrackedControllers(slots: seq<ControllerTracker>): (trackers: seq<int>)
    ensures |trackers| <= |slots|
    ensures forall i :: 0 <= i < |slots| && slots[i].device != NO_HANDLE ==> slots[i].tracker in trackers
    ensures forall t :: t in trackers ==> exists i :: 0 <= i < |slots| && slots[i].device != NO_HANDLE && slots[i].tracker == t
  {
    if slots == [] then []
    else
      var n := |slots| - 1;
      var init := TrackedControllers(slots[..n]);
      assert forall i :: 0 <= i < n ==> slots[i] == slots[..n][i];
      if slots[n].device != NO_HANDLE then init + [slots[n].tracker] else init
  }

  /**
    The slot loop of `godot_arvr_process`: for the owner, every slot that
    holds a device has its controller updated; any other `p_data` updates
    nothing.
   */
  method ProcessControllers(hmd: OpenHMD, pData: OpenHMDDataStruct?) returns (updated: seq<int>)
    requires hmd.Valid()
    ensures Owns(hmd, pData) ==> updated == TrackedControllers(hmd.Slots())
    ensures !Owns(hmd, pData) ==> updated == []
  {
    if pData == null || pData != hmd.data {
      return [];
    }
    var mapping := pData.controllerTrackerMapping;
    updated := [];
    var i := 0;
    while i < OPENHMD_MAX_CONTROLLERS
      invariant 0 <= i <= OPENHMD_MAX_CONTROLLERS
      invariant updated == TrackedControllers(mapping[..i])
    {
      assert mapping[..i + 1][..i] == mapping[..i];
      if mapping[i].device != NO_HANDLE {
        updated := updated + [mapping[i].tracker];
      }
      i := i + 1;
    }
    assert mapping[..i] == hmd.Slots();
  }
}
