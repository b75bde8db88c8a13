/**
  The Android `PerformanceSettingsLevel` enum (the XrPerfSettingsLevelEXT
  codes 0, 25, 50, 75) and its lookup, which falls back to `SustainedHigh`.
 */
module PerformanceSettingsLevelKt {
  import SeqOps

  datatype PerformanceSettingsLevel = PowerSavings | SustainedLow | SustainedHigh | Boost

  const Values: seq<PerformanceSettingsLevel> := [PowerSavings, SustainedLow, SustainedHigh, Boost]

  /** The native code the variant carries (the Kotlin enum's `value`). */
  function Code(l: PerformanceSettingsLevel): int
  {
    match l
    case PowerSavings => 0
    case SustainedLow => 25
    case SustainedHigh => 50
    case Boost => 75
  }

  /** `toPerformanceSettingsLevel`: the first variant whose code is `value`, else `SustainedHigh`. */
  function ToPerformanceSettingsLevel(value: int): (r: PerformanceSettingsLevel)
    ensures Code(r) == value || r == SustainedHigh
  {
    SeqOps.FindFirst(Values, Code, value, SustainedHigh)
  }

  /** The codes strictly increase in declaration order (hence are distinct). */
  lemma CodesIncreasing()
    ensures forall a, b :: 0 <= a < b < |Values| ==> Code(Values[a]) < Code(Values[b])
    ensures forall l: PerformanceSettingsLevel :: l in Values
  {
    forall l: PerformanceSettingsLevel ensures l in Values {
      match l
      case PowerSavings => assert Values[0] == l;
      case SustainedLow => assert Values[1] == l;
      case SustainedHigh => assert Values[2] == l;
      case Boost => assert Values[3] == l;
    }
  }

  /** Codes 0/25/50/75 give the four levels; every other code, 1..3 included, gives `SustainedHigh`. */
  lemma Lookup(value: int)
    ensures value == 0 ==> ToPerformanceSettingsLevel(value) == PowerSavings
    ensures value == 25 ==> ToPerformanceSettingsLevel(value) == SustainedLow
    ensures value == 50 ==> ToPerformanceSettingsLevel(value) == SustainedHigh
    ensures value == 75 ==> ToPerformanceSettingsLevel(value) == Boost
    ensures value !in {0, 25, 50, 75} ==> ToPerformanceSettingsLevel(value) == SustainedHigh
  {
    CodesIncreasing();
    if value == 0 {
      SeqOps.FindFirstOfKey(Values, Code, 0, SustainedHigh);
    } else if value == 25 {
      SeqOps.FindFirstOfKey(Values, Code, 1, SustainedHigh);
    } else if value == 50 {
      SeqOps.FindFirstOfKey(Values, Code, 2, SustainedHigh);
    } else if value == 75 {
      SeqOps.FindFirstOfKey(Values, Code, 3, SustainedHigh);
    } else {
      assert forall i :: 0 <= i < |Values| ==> Code(Values[i]) in {0, 25, 50, 75};
    }
  }

  /** Round trip: every level is recovered from its own code. */
  lemma RoundTrip(l: PerformanceSettingsLevel)
    ensures ToPerformanceSettingsLevel(Code(l)) == l
  {
    Lookup(Code(l));
  }
}
