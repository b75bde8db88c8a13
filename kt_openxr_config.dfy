/**
  `api/OpenXRConfig.kt`: a second declaration of the colour-space enum
  (with `XR_COLOR_SPACE_`-prefixed names) and the colour-space accessors
  of the plugin. The native entry points are parameters: a getter receives
  the native layer's answer, a setter returns the value it hands to the
  native layer.
 */
module OpenXRConfigKt {
  import SeqOps
  import XrColorSpaceKt

  datatype XrColorSpace =
    | ColorSpaceUnmanaged | ColorSpaceRec2020 | ColorSpaceRec709 | ColorSpaceRiftCv1
    | ColorSpaceRiftS | ColorSpaceQuest | ColorSpaceP3 | ColorSpaceAdobeRgb

  const Values: seq<XrColorSpace> :=
    [ColorSpaceUnmanaged, ColorSpaceRec2020, ColorSpaceRec709, ColorSpaceRiftCv1,
     ColorSpaceRiftS, ColorSpaceQuest, ColorSpaceP3, ColorSpaceAdobeRgb]

  /** The native code the variant carries (the Kotlin enum's `value`). */
  function Code(c: XrColorSpace): int
  {
    match c
    case ColorSpaceUnmanaged => 0
    case ColorSpaceRec2020 => 1
    case ColorSpaceRec709 => 2
    case ColorSpaceRiftCv1 => 3
    case ColorSpaceRiftS => 4
    case ColorSpaceQuest => 5
    case ColorSpaceP3 => 6
    case ColorSpaceAdobeRgb => 7
  }

  function ToXrColorSpace(value: int): (r: XrColorSpace)
    ensures Code(r) == value || r == ColorSpaceUnmanaged
  {
    SeqOps.FindFirst(Values, Code, value, ColorSpaceUnmanaged)
  }

  /**
    The source declares the colour-space enum twice, here and in
    `api/XrColorSpace.kt`; this lemma mirrors `XrColorSpaceKt.CodesAreIndices`
    for the second declaration.
   */
  lemma CodesAreIndices()
    ensures forall i :: 0 <= i < |Values| ==> Code(Values[i]) == i
    ensures forall c: XrColorSpace :: c in Values
  {
    forall c: XrColorSpace ensures c in Values {
      assert Values[Code(c)] == c;
    }
  }

  /** Codes 0..7 give the eight variants; every other code gives `ColorSpaceUnmanaged`. */
  lemma Lookup(value: int)
    ensures 0 <= value < 8 ==> ToXrColorSpace(value) == Values[value] && Code(ToXrColorSpace(value)) == value
    ensures !(0 <= value < 8) ==> ToXrColorSpace(value) == ColorSpaceUnmanaged
  {
    CodesAreIndices();
    if 0 <= value < 8 {
      SeqOps.FindFirstOfKey(Values, Code, value, ColorSpaceUnmanaged);
    }
  }

  /** This declaration decodes every native code exactly as the one in `api/XrColorSpace.kt`. */
  lemma AgreesWithXrColorSpaceKt(value: int)
    ensures Code(ToXrColorSpace(value)) == XrColorSpaceKt.Code(XrColorSpaceKt.ToXrColorSpace(value))
  {
    Lookup(value);
    XrColorSpaceKt.Lookup(value);
  }

  /** `getColorSpace`: decodes the native answer. */
  function GetColorSpace(nativeValue: int): (r: XrColorSpace)
    ensures 0 <= nativeValue < 8 ==> Code(r) == nativeValue
    ensures !(0 <= nativeValue < 8) ==> r == ColorSpaceUnmanaged
  {
    Lookup(nativeValue);
    ToXrColorSpace(nativeValue)
  }

  /** `setColorSpace`: the value handed to `nativeSetXrColorSpace`. */
  function SetColorSpace(colorSpace: XrColorSpace): (passed: int)
    ensures 0 <= passed < 8 && ToXrColorSpace(passed) == colorSpace
  {
    Lookup(Code(colorSpace));
    CodesAreIndices();
    Code(colorSpace)
  }

  /** With a native layer that echoes what was set, getting after setting returns the set value. */
  lemma GetAfterSet(colorSpace: XrColorSpace)
    ensures GetColorSpace(SetColorSpace(colorSpace)) == colorSpace
  {
  }

  /** `getAvailableColorSpaces`: one decoded entry per native entry, in order. */
  function GetAvailableColorSpaces(raw: seq<int>): (r: seq<XrColorSpace>)
    ensures |r| == |raw|
    ensures forall i :: 0 <= i < |raw| && 0 <= raw[i] < 8 ==> Code(r[i]) == raw[i]
    ensures forall i :: 0 <= i < |raw| && !(0 <= raw[i] < 8) ==> r[i] == ColorSpaceUnmanaged
  {
    var r := seq(|raw|, i requires 0 <= i < |raw| => ToXrColorSpace(raw[i]));
    assert forall i :: 0 <= i < |raw| ==> r[i] == GetColorSpace(raw[i]);
    r
  }
}
