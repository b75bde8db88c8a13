/**
  `src/openxr/extensions/xr_fb_color_space_extension_wrapper.cpp`: the
  wrapper of `XR_FB_color_space`. It remembers the display colour space,
  changes it only when the extension is enabled and the runtime accepts,
  lists the runtime's colour spaces with their names, and chains its
  properties structure into `xrGetSystemProperties`.
 */
module ColorSpaceWrapper {
  import opened OpenXRCommon
  import CodeTables

  const XR_COLOR_SPACE_UNMANAGED_FB: int := 0
  const XR_COLOR_SPACE_MAX_ENUM_FB: int := 0x7FFF_FFFF

  /** The `XrColorSpaceFB` enumerants and the names `get_color_space_enum_desc` gives them. */
  const COLOR_SPACE_NAMES: CodeTables.Table := [
    (0, "XR_COLOR_SPACE_UNMANAGED_FB"),
    (1, "XR_COLOR_SPACE_REC2020_FB"),
    (2, "XR_COLOR_SPACE_REC709_FB"),
    (3, "XR_COLOR_SPACE_RIFT_CV1_FB"),
    (4, "XR_COLOR_SPACE_RIFT_S_FB"),
    (5, "XR_COLOR_SPACE_QUEST_FB"),
    (6, "XR_COLOR_SPACE_P3_FB"),
    (7, "XR_COLOR_SPACE_ADOBE_RGB_FB"),
    (0x7FFF_FFFF, "XR_COLOR_SPACE_MAX_ENUM_FB")
  ]

  /** `get_color_space_enum_desc`. */
  function ColorSpaceEnumDesc(colorSpace: int): (desc: string)
  {
    CodeTables.NameOf(COLOR_SPACE_NAMES, colorSpace, "Unknown")
  }

  /** The eight colour spaces and `MAX_ENUM` get their own names; every other value is "Unknown". */
  lemma ColorSpaceEnumDescTotal(colorSpace: int)
    ensures forall i :: 0 <= i < |COLOR_SPACE_NAMES| ==> ColorSpaceEnumDesc(COLOR_SPACE_NAMES[i].0) == COLOR_SPACE_NAMES[i].1
    ensures !(0 <= colorSpace <= 7 || colorSpace == XR_COLOR_SPACE_MAX_ENUM_FB) ==> ColorSpaceEnumDesc(colorSpace) == "Unknown"
  {
    assert CodeTables.Increasing(COLOR_SPACE_NAMES);
    CodeTables.NameOfIncreasing(COLOR_SPACE_NAMES, "Unknown");
    if !(0 <= colorSpace <= 7 || colorSpace == XR_COLOR_SPACE_MAX_ENUM_FB) {
      if colorSpace < 0 || colorSpace > XR_COLOR_SPACE_MAX_ENUM_FB {
        CodeTables.NameOfOutside(COLOR_SPACE_NAMES, colorSpace, "Unknown");
      }
    }
  }

  /** The dictionary `get_available_color_spaces` fills: every listed space, keyed by itself, with its name. */
  function SpacesDictionary(spaces: seq<int>): (dict: map<int, string>)
    ensures dict.Keys == set i | 0 <= i < |spaces| :: spaces[i]
    ensures forall k :: k in dict ==> dict[k] == ColorSpaceEnumDesc(k)
  {
    if spaces == [] then map[]
    else
      var n := |spaces| - 1;
      var init := SpacesDictionary(spaces[..n]);
      assert forall i :: 0 <= i < n ==> spaces[..n][i] == spaces[i];
      assert (set i | 0 <= i < |spaces| :: spaces[i]) == (set i | 0 <= i < n :: spaces[..n][i]) + {spaces[n]};
      init[spaces[n] := ColorSpaceEnumDesc(spaces[n])]
  }

  class ColorSpaceExtensionWrapper {
    /** `fb_color_space_ext`: requested and enabled. */
    var extensionEnabled: bool
    /** `color_space_properties.colorSpace`. */
    var colorSpace: int

    /** The constructor: disabled, with the unmanaged colour space. */
    constructor ()
      ensures !extensionEnabled && colorSpace == XR_COLOR_SPACE_UNMANAGED_FB
    {
      extensionEnabled := false;
      colorSpace := XR_COLOR_SPACE_UNMANAGED_FB;
    }

    /** The OpenXR layer writes through `&fb_color_space_ext` whether the runtime offers the extension. */
    method OnExtensionRequested(available: bool)
      modifies this`extensionEnabled
      ensures extensionEnabled == available && colorSpace == old(colorSpace)
    {
      extensionEnabled := available;
    }

    /** `on_instance_initialized`: a failure to load the entry points disables the extension. */
    method OnInstanceInitialized(loadResult: int)
      modifies this`extensionEnabled
      ensures extensionEnabled <==> old(extensionEnabled) && XrSucceeded(loadResult)
    {
      if extensionEnabled {
        if !XrResult(loadResult) {
          extensionEnabled := false;
        }
      }
    }

    /** `cleanup`: disabled; the colour space is kept. */
    method Cleanup()
      modifies this`extensionEnabled
      ensures !extensionEnabled
    {
      extensionEnabled := false;
    }

    /** `get_color_space`. */
    function GetColorSpace(): (space: int)
      reads this
      ensures space == colorSpace
    {
      colorSpace
    }

    /**
      `set_color_space`: nothing happens while disabled; otherwise the
      runtime is asked (`setResult`) and the new space is kept only on
      success.
     */
    method SetColorSpace(newColorSpace: int, setResult: int)
      modifies this`colorSpace
      ensures GetColorSpace() == if extensionEnabled && XrSucceeded(setResult) then newColorSpace else old(GetColorSpace())
    {
      if extensionEnabled {
        if !XrResult(setResult) {
          return;
        }
        colorSpace := newColorSpace;
      }
    }

    /**
      `set_system_properties_and_get_next_pointer`: while enabled, the
      properties structure is chained in (the answer is its `next` field)
      and its colour space reset to unmanaged until the runtime fills it;
      while disabled the answer is null and nothing changes.
     */
    method SetSystemPropertiesAndGetNextPointer() returns (chained: bool)
      modifies this`colorSpace
      ensures chained == extensionEnabled
      ensures colorSpace == if extensionEnabled then XR_COLOR_SPACE_UNMANAGED_FB else old(colorSpace)
    {
      if extensionEnabled {
        colorSpace := XR_COLOR_SPACE_UNMANAGED_FB;
        return true;
      } else {
        return false;
      }
    }

    /**
      `get_available_color_spaces`: empty while disabled, when either
      enumeration fails (`countResult`, `enumerateResult`), or when the
      runtime reports no colour space (`count`); otherwise every returned
      space (`spaces`) with its name.
     */
    method GetAvailableColorSpaces(countResult: int, count: int, enumerateResult: int, spaces: seq<int>)
      returns (dict: map<int, string>)
      ensures !extensionEnabled || !XrSucceeded(countResult) || count == 0 || !XrSucceeded(enumerateResult) ==> dict == map[]
      ensures extensionEnabled && XrSucceeded(countResult) && count != 0 && XrSucceeded(enumerateResult) ==>
                dict == SpacesDictionary(spaces)
    {
      dict := map[];
      if extensionEnabled {
        if !XrResult(countResult) {
          return;
        }
        if count == 0 {
          return;
        }
        if !XrResult(enumerateResult) {
          return;
        }
        var i := 0;
        while i < |spaces|
          invariant 0 <= i <= |spaces|
          invariant dict == SpacesDictionary(spaces[..i])
        {
          assert spaces[..i + 1][..i] == spaces[..i];
          dict := dict[spaces[i] := ColorSpaceEnumDesc(spaces[i])];
          i := i + 1;
        }
        assert spaces[..i] == spaces;
      }
    }
  }
}
