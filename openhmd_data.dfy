/**
  `src/openhmd_data.c`: the data shared by the OpenHMD interface. One
  global `openhmd_data` object carries a use count, the OpenHMD context
  and settings, the HMD and tracking devices and a fixed table of sixteen
  controller slots. Pointers to OpenHMD objects are modelled as integer
  handles, `NO_HANDLE` standing for `NULL`; what an OpenHMD call returns
  is a parameter.
 */
module OpenHMDData {
  import opened OpenXRCommon

  const OPENHMD_MAX_CONTROLLERS: int := 16

  /** A `NULL` context, settings or device pointer. */
  const NO_HANDLE: int := 0

  /** One `openhmd_controller_tracker`: an opened device and its Godot tracker id. */
  datatype ControllerTracker = ControllerTracker(device: int, tracker: int)

  const EMPTY_SLOT: ControllerTracker := ControllerTracker(NO_HANDLE, 0)

  /** The scalar fields of `openhmd_data_struct`. */
  datatype DataFields = DataFields(
    useCount: int,
    doAutoInitDeviceZero: bool,
    numDevices: int,
    width: int,
    height: int,
    oversample: real,
    context: int,
    settings: int,
    hmdDevice: int,
    trackingDevice: int)

  /** What `get_openhmd_data` stores in a freshly allocated object. */
  const INITIAL_FIELDS: DataFields := DataFields(1, true, 0, 0, 0, 2.0, NO_HANDLE, NO_HANDLE, NO_HANDLE, NO_HANDLE)

  /** C's `x /= 2` on an `int`: division truncating toward zero. */
  function HalfTruncated(x: int): (r: int)
    ensures x >= 0 ==> 0 <= x - 2 * r <= 1
    ensures x < 0 ==> -1 <= x - 2 * r <= 0
  {
    if x >= 0 then x / 2 else -((-x) / 2)
  }

  /**
    The slot-search loop of `openhmd_init_controller_device` as a function:
    the index of the first slot without a device, or the table size when
    every slot is taken.
   */
  function FirstEmptySlot(slots: seq<ControllerTracker>): (k: nat)
    ensures k <= |slots|
    ensures forall j :: 0 <= j < k ==> slots[j].device != NO_HANDLE
    ensures k < |slots| ==> slots[k].device == NO_HANDLE
  {
    if slots == [] || slots[0].device == NO_HANDLE then 0
    else 1 + FirstEmptySlot(slots[1..])
  }

  /** The first empty slot is the one every slot before is taken and which is itself empty, or the end. */
  lemma {:induction false} FirstEmptySlotIs(slots: seq<ControllerTracker>, i: int)
    requires 0 <= i <= |slots|
    requires forall j :: 0 <= j < i ==> slots[j].device != NO_HANDLE
    requires i < |slots| ==> slots[i].device == NO_HANDLE
    ensures FirstEmptySlot(slots) == i
  {
    if i > 0 {
      FirstEmptySlotIs(slots[1..], i - 1);
    }
  }

  /** Closing a slot below which every slot is taken makes it the next one handed out. */
  lemma {:induction false} ClosedSlotReused(slots: seq<ControllerTracker>, k: int)
    requires 0 <= k < |slots|
    requires forall j :: 0 <= j < k ==> slots[j].device != NO_HANDLE
    ensures FirstEmptySlot(slots[k := EMPTY_SLOT]) == k
  {
    var t := slots[k := EMPTY_SLOT];
    if k > 0 {
      assert t[1..] == slots[1..][k - 1 := EMPTY_SLOT];
      ClosedSlotReused(slots[1..], k - 1);
    }
  }

  /** Filling the first empty slot moves the search past it. */
  lemma {:induction false} FilledSlotSkipped(slots: seq<ControllerTracker>, c: ControllerTracker)
    requires FirstEmptySlot(slots) < |slots| && c.device != NO_HANDLE
    ensures FirstEmptySlot(slots[FirstEmptySlot(slots) := c]) > FirstEmptySlot(slots)
  {
    var k := FirstEmptySlot(slots);
    var t := slots[k := c];
    if k > 0 {
      assert t[1..] == slots[1..][k - 1 := c];
      FilledSlotSkipped(slots[1..], c);
    }
  }

  /** `openhmd_data_struct`. */
  class OpenHMDDataStruct {
    var useCount: int
    var doAutoInitDeviceZero: bool
    var numDevices: int
    var width: int
    var height: int
    var oversample: real
    var context: int
    var settings: int
    var hmdDevice: int
    var trackingDevice: int
    const controllerTrackerMapping: array<ControllerTracker>

    function Fields(): (f: DataFields)
      reads this
    {
      DataFields(useCount, doAutoInitDeviceZero, numDevices, width, height, oversample,
                 context, settings, hmdDevice, trackingDevice)
    }

    /** The initialisation in `get_openhmd_data`, including the loop that empties every slot. */
    constructor ()
      ensures Fields() == INITIAL_FIELDS
      ensures fresh(controllerTrackerMapping) && controllerTrackerMapping.Length == OPENHMD_MAX_CONTROLLERS
      ensures forall i :: 0 <= i < OPENHMD_MAX_CONTROLLERS ==> controllerTrackerMapping[i] == EMPTY_SLOT
    {
      useCount := 1;
      doAutoInitDeviceZero := true;
      numDevices := 0;
      width := 0;
      height := 0;
      oversample := 2.0;
      context := NO_HANDLE;
      settings := NO_HANDLE;
      hmdDevice := NO_HANDLE;
      trackingDevice := NO_HANDLE;
      var mapping := new ControllerTracker[OPENHMD_MAX_CONTROLLERS];
      for i := 0 to OPENHMD_MAX_CONTROLLERS
        invariant forall j :: 0 <= j < i ==> mapping[j] == EMPTY_SLOT
      {
        mapping[i] := EMPTY_SLOT;
      }
      controllerTrackerMapping := mapping;
    }
  }

  /** The global `openhmd_data` pointer and the functions of `openhmd_data.c` that use it. */
  class OpenHMD {
    var data: OpenHMDDataStruct?

    ghost predicate Valid()
      reads this, data
    {
      data != null ==> data.controllerTrackerMapping.Length == OPENHMD_MAX_CONTROLLERS && data.useCount >= 1
    }

    /** The controller table, when there is one. */
    function Table(): set<object>
      reads this
    {
      if data == null then {} else {data.controllerTrackerMapping}
    }

    /** The controller slots; empty while `openhmd_data` is null. */
    function Slots(): (s: seq<ControllerTracker>)
      reads this, Table()
      ensures data != null ==> |s| == data.controllerTrackerMapping.Length
    {
      if data == null then [] else data.controllerTrackerMapping[..]
    }

    /** The pointer as a reference-counted singleton. */
    function Count(): (s: Singleton)
      reads this, data
    {
      if data == null then Released else Live(data.useCount)
    }

    /** Both the data object and its OpenHMD context exist: what every device call first checks. */
    predicate HasContext()
      reads this, data
    {
      data != null && data.context != NO_HANDLE
    }

    constructor ()
      ensures data == null && Valid()
    {
      data := null;
    }

    /**
      `get_openhmd_data`: the first call allocates the object with use count
      1, auto-init of device 0, no devices, oversample 2 and empty slots;
      later calls add a user.
     */
    method GetOpenHMDData() returns (d: OpenHMDDataStruct)
      requires Valid()
      modifies this, data
      ensures Valid() && d == data
      ensures Count() == AfterGet(old(Count()), true)
      ensures old(data) == null ==> fresh(d) && d.Fields() == INITIAL_FIELDS
                                    && Slots() == seq(OPENHMD_MAX_CONTROLLERS, _ => EMPTY_SLOT)
      ensures old(data) != null ==> d == old(data) && Slots() == old(Slots())
                                    && d.Fields() == old(data.Fields()).(useCount := old(data.useCount) + 1)
    {
      if data == null {
        data := new OpenHMDDataStruct();
      } else {
        data.useCount := data.useCount + 1;
      }
      d := data;
    }

    /**
      `release_openhmd_data`: a count above one goes down, the last user
      frees the object; a null pointer (or a count below one, which the
      invariant excludes) is left alone.
     */
    method ReleaseOpenHMDData()
      requires Valid()
      modifies this, data
      ensures Valid()
      ensures Count() == AfterRelease(old(Count()))
      ensures data == null || (data == old(data) && Slots() == old(Slots())
                               && data.Fields() == old(data.Fields()).(useCount := old(data.useCount) - 1))
    {
      if data != null {
        if data.useCount > 1 {
          data.useCount := data.useCount - 1;
        } else if data.useCount == 1 {
          data := null;
        }
      }
    }

    /** `openhmd_scan_for_devices`: with a context, the probed device count replaces the old one. */
    method ScanForDevices(probe: int)
      requires Valid()
      modifies data
      ensures Valid()
      ensures HasContext() <==> old(HasContext())
      ensures old(HasContext()) ==> data.Fields() == old(data.Fields()).(numDevices := probe) && DeviceCount() == probe
      ensures !old(HasContext()) ==> data == null || data.Fields() == old(data.Fields())
    {
      if data != null && data.context != NO_HANDLE {
        data.numDevices := probe;
      }
    }

    /** `openhmd_device_count`: 0 until there is a context, then the last probed count. */
    function DeviceCount(): (n: int)
      reads this, data
      ensures !HasContext() ==> n == 0
      ensures HasContext() ==> n == data.numDevices
    {
      if data == null then 0 else if data.context == NO_HANDLE then 0 else data.numDevices
    }

    /**
      Whether device index `p` is looked up in OpenHMD's device list: only
      the upper bound is checked, so a negative index passes.
     */
    predicate DeviceListed(p: int)
      reads this, data
    {
      HasContext() && p < data.numDevices
    }

    /**
      `openhmd_get_device_vendor` and `openhmd_get_device_product`: the
      string OpenHMD lists for the device (`listed`), or the empty string
      without a context or for an index at or past the device count.
     */
    function DeviceString(p: int, listed: string): (name: string)
      reads this, data
      ensures DeviceListed(p) ==> name == listed
      ensures !HasContext() || p >= DeviceCount() ==> name == ""
    {
      if data == null then ""
      else if data.context == NO_HANDLE then ""
      else if p >= data.numDevices then ""
      else listed
    }

    /** `openhmd_close_hmd_device`: with a context, the HMD device is closed. */
    method CloseHmdDevice()
      requires Valid()
      modifies data
      ensures Valid()
      ensures old(HasContext()) ==> data.Fields() == old(data.Fields()).(hmdDevice := NO_HANDLE)
      ensures !old(HasContext()) ==> data == null || data.Fields() == old(data.Fields())
    {
      if data != null && data.context != NO_HANDLE && data.hmdDevice != NO_HANDLE {
        data.hmdDevice := NO_HANDLE;
      }
    }

    /**
      `openhmd_init_hmd_device`: with a context, any open HMD device is
      closed first; an index at or past the device count then fails.
      Otherwise the device OpenHMD opens (`openedDevice`) becomes the HMD device,
      and when it opened the render width is half its horizontal
      resolution and the height its vertical resolution.
     */
    method InitHmdDevice(p: int, openedDevice: int, horizontalResolution: int, verticalResolution: int) returns (ok: bool)
      requires Valid()
      modifies data
      ensures Valid()
      ensures !old(HasContext()) ==> !ok && (data == null || data.Fields() == old(data.Fields()))
      ensures old(HasContext()) && !old(DeviceListed(p)) ==>
                !ok && data.Fields() == old(data.Fields()).(hmdDevice := NO_HANDLE)
      ensures old(DeviceListed(p)) ==> (ok <==> openedDevice != NO_HANDLE)
      ensures old(DeviceListed(p)) && openedDevice == NO_HANDLE ==>
                data.Fields() == old(data.Fields()).(hmdDevice := NO_HANDLE)
      ensures old(DeviceListed(p)) && openedDevice != NO_HANDLE ==>
                data.Fields() == old(data.Fields()).(hmdDevice := openedDevice,
                                                    width := HalfTruncated(horizontalResolution),
                                                    height := verticalResolution)
    {
      if data == null {
        return false;
      } else if data.context == NO_HANDLE {
        return false;
      }
      if data.hmdDevice != NO_HANDLE {
        CloseHmdDevice();
      }
      if data.numDevices <= p {
        return false;
      }
      data.hmdDevice := openedDevice;
      if data.hmdDevice == NO_HANDLE {
        return false;
      }
      data.width := HalfTruncated(horizontalResolution);
      data.height := verticalResolution;
      ok := true;
    }

    /** `openhmd_close_tracking_device`: with a context, the tracking device is closed. */
    method CloseTrackingDevice()
      requires Valid()
      modifies data
      ensures Valid()
      ensures old(HasContext()) ==> data.Fields() == old(data.Fields()).(trackingDevice := NO_HANDLE)
      ensures !old(HasContext()) ==> data == null || data.Fields() == old(data.Fields())
    {
      if data != null && data.context != NO_HANDLE && data.trackingDevice != NO_HANDLE {
        data.trackingDevice := NO_HANDLE;
      }
    }

    /** `openhmd_init_tracking_device`: as for the HMD device, without the resolution. */
    method InitTrackingDevice(p: int, openedDevice: int) returns (ok: bool)
      requires Valid()
      modifies data
      ensures Valid()
      ensures !old(HasContext()) ==> !ok && (data == null || data.Fields() == old(data.Fields()))
      ensures old(HasContext()) && !old(DeviceListed(p)) ==>
                !ok && data.Fields() == old(data.Fields()).(trackingDevice := NO_HANDLE)
      ensures old(DeviceListed(p)) ==>
                (ok <==> openedDevice != NO_HANDLE) && data.Fields() == old(data.Fields()).(trackingDevice := openedDevice)
    {
      if data == null {
        return false;
      } else if data.context == NO_HANDLE {
        return false;
      }
      if data.trackingDevice != NO_HANDLE {
        CloseTrackingDevice();
      }
      if data.numDevices <= p {
        return false;
      }
      data.trackingDevice := openedDevice;
      if data.trackingDevice == NO_HANDLE {
        return false;
      }
      ok := true;
    }

    /**
      `openhmd_close_controller_device`: with a context, a slot holding a
      device is emptied (device and tracker id cleared); the index is not
      checked, so callers must keep it in the table.
     */
    method CloseControllerDevice(index: int)
      requires Valid()
      requires 0 <= index < OPENHMD_MAX_CONTROLLERS
      modifies Table()
      ensures Valid()
      ensures old(HasContext()) && old(Slots())[index].device != NO_HANDLE ==> Slots() == old(Slots())[index := EMPTY_SLOT]
      ensures !(old(HasContext()) && old(Slots())[index].device != NO_HANDLE) ==> Slots() == old(Slots())
    {
      if data == null {
      } else if data.context == NO_HANDLE {
      } else if data.controllerTrackerMapping[index].device != NO_HANDLE {
        data.controllerTrackerMapping[index] := EMPTY_SLOT;
      }
    }

    /**
      `openhmd_init_controller_device`: with a context, the device OpenHMD
      opens goes into the first empty slot, which then gets the tracker id
      Godot hands out (`tracker`). Only a full table fails: when the device
      does not open, the slot stays empty and the call still succeeds.
     */
    method InitControllerDevice(openedDevice: int, tracker: int) returns (ok: bool)
      requires Valid()
      modifies Table()
      ensures Valid()
      ensures !old(HasContext()) ==> !ok && Slots() == old(Slots())
      ensures old(HasContext()) ==> (ok <==> FirstEmptySlot(old(Slots())) < OPENHMD_MAX_CONTROLLERS)
      ensures old(HasContext()) && !ok ==> Slots() == old(Slots())
      ensures ok && openedDevice != NO_HANDLE ==>
                Slots() == old(Slots())[FirstEmptySlot(old(Slots())) := ControllerTracker(openedDevice, tracker)]
      ensures ok && openedDevice == NO_HANDLE ==> Slots() == old(Slots())
    {
      if data == null {
        return false;
      } else if data.context == NO_HANDLE {
        return false;
      }
      var mapping := data.controllerTrackerMapping;
      var i := 0;
      while i < OPENHMD_MAX_CONTROLLERS && mapping[i].device != NO_HANDLE
        invariant 0 <= i <= OPENHMD_MAX_CONTROLLERS
        invariant forall j :: 0 <= j < i ==> mapping[j].device != NO_HANDLE
      {
        i := i + 1;
      }
      FirstEmptySlotIs(mapping[..], i);
      if i == OPENHMD_MAX_CONTROLLERS {
        return false;
      }
      mapping[i] := ControllerTracker(openedDevice, mapping[i].tracker);
      if mapping[i].device != NO_HANDLE {
        mapping[i] := ControllerTracker(mapping[i].device, tracker);
      }
      ok := true;
    }

    /** `openhmd_get_oversample`: 1 while there is no data object. */
    function GetOversample(): (v: real)
      reads this, data
      ensures data == null ==> v == 1.0
      ensures data != null ==> v == data.oversample
    {
      if data == null then 1.0 else data.oversample
    }

    /** `openhmd_set_oversample`: ignored while there is no data object. */
    method SetOversample(v: real)
      requires Valid()
      modifies data
      ensures Valid()
      ensures data != null ==> data.Fields() == old(data.Fields()).(oversample := v) && GetOversample() == v
      ensures data == null ==> GetOversample() == 1.0
    {
      if data != null {
        data.oversample := v;
      }
    }
  }
}
