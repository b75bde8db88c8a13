/**
  The Android `XrColorSpace` enum (XrColorSpaceFB codes 0..7) and its
  lookup, which falls back to `Unmanaged`.
 */
module XrColorSpaceKt {
  import SeqOps

  datatype XrColorSpace = Unmanaged | Rec2020 | Rec709 | RiftCv1 | RiftS | Quest | P3 | AdobeRgb

  const Values: seq<XrColorSpace> := [Unmanaged, Rec2020, Rec709, RiftCv1, RiftS, Quest, P3, AdobeRgb]

  /** The native code the variant carries (the Kotlin enum's `value`). */
  function Code(c: XrColorSpace): int
  {
    match c
    case Unmanaged => 0
    case Rec2020 => 1
    case Rec709 => 2
    case RiftCv1 => 3
    case RiftS => 4
    case Quest => 5
    case P3 => 6
    case AdobeRgb => 7
  }

  /** `toXrColorSpace`: the first variant whose code is `value`, else `Unmanaged`. */
  function ToXrColorSpace(value: int): (r: XrColorSpace)
    ensures Code(r) == value || r == Unmanaged
  {
    SeqOps.FindFirst(Values, Code, value, Unmanaged)
  }

  /**
    Values[i] carries code i, so the codes are distinct and cover every
    variant. `api/OpenXRConfig.kt` declares the same enum again, and
    `OpenXRConfigKt.CodesAreIndices` mirrors this lemma for it.
   */
  lemma CodesAreIndices()
    ensures forall i :: 0 <= i < |Values| ==> Code(Values[i]) == i
    ensures forall c: XrColorSpace :: c in Values
  {
    forall c: XrColorSpace ensures c in Values {
      assert Values[Code(c)] == c;
    }
  }

  /** For v in 0..7 the lookup gives the variant with code v; outside 0..7 it gives `Unmanaged`. */
  lemma Lookup(value: int)
    ensures 0 <= value < 8 ==> ToXrColorSpace(value) == Values[value] && Code(ToXrColorSpace(value)) == value
    ensures !(0 <= value < 8) ==> ToXrColorSpace(value) == Unmanaged
  {
    CodesAreIndices();
    if 0 <= value < 8 {
      SeqOps.FindFirstOfKey(Values, Code, value, Unmanaged);
    }
  }

  /** Round trip: every colour space is recovered from its own code. */
  lemma RoundTrip(c: XrColorSpace)
    ensures ToXrColorSpace(Code(c)) == c
  {
    Lookup(Code(c));
    CodesAreIndices();
  }
}
