/**
  The Android `FoveationLevel` enum: four named levels carrying the native
  XrFoveationLevelFB code, and the companion lookup from a native code back
  to a level, which falls back to `None` for an unknown code.
 */
module FoveationLevelKt {
  import SeqOps

  datatype FoveationLevel = None | Low | Medium | High

  /** `values()`: the variants in declaration order. */
  const Values: seq<FoveationLevel> := [None, Low, Medium, High]

  /** The native code the variant carries (the Kotlin enum's `value`). */
  function Code(l: FoveationLevel): int
  {
    match l
    case None => 0
    case Low => 1
    case Medium => 2
    case High => 3
  }

  /** `toFoveationLevel`: the first variant whose code is `value`, else `None`. */
  function ToFoveationLevel(value: int): (r: FoveationLevel)
    ensures Code(r) == value || r == None
  {
    SeqOps.FindFirst(Values, Code, value, None)
  }

  /** Codes 0..3 name the four levels in order. */
  lemma KnownCodes()
    ensures ToFoveationLevel(0) == None && ToFoveationLevel(1) == Low
    ensures ToFoveationLevel(2) == Medium && ToFoveationLevel(3) == High
  {
    CodesDistinct();
    SeqOps.FindFirstOfKey(Values, Code, 0, None);
    SeqOps.FindFirstOfKey(Values, Code, 1, None);
    SeqOps.FindFirstOfKey(Values, Code, 2, None);
    SeqOps.FindFirstOfKey(Values, Code, 3, None);
  }

  /** Any code outside 0..3 falls back to `None`; inside 0..3 the lookup recovers the code. */
  lemma UnknownCodeIsNone(value: int)
    ensures !(0 <= value <= 3) ==> ToFoveationLevel(value) == None
    ensures 0 <= value <= 3 ==> Code(ToFoveationLevel(value)) == value
  {
    if 0 <= value <= 3 { KnownCodes(); }
  }

  /** Round trip: looking up a level's own code gives back that level. */
  lemma RoundTrip(l: FoveationLevel)
    ensures ToFoveationLevel(Code(l)) == l
  {
    KnownCodes();
  }

  /** The codes are pairwise distinct, so the lookup is a bijection on 0..3. */
  lemma CodesDistinct()
    ensures forall a, b :: 0 <= a < b < |Values| ==> Code(Values[a]) != Code(Values[b])
    ensures forall l: FoveationLevel :: l in Values
  {
    forall l: FoveationLevel ensures l in Values {
      match l
      case None => assert Values[0] == l;
      case Low => assert Values[1] == l;
      case Medium => assert Values[2] == l;
      case High => assert Values[3] == l;
    }
  }
}
