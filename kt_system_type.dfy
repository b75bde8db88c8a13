/**
  The Android `SystemType` enum: systems named by the string the native
  layer reports, with `Unknown` for a null, empty or unlisted name.
 */
module SystemTypeKt {
  import SeqOps
  import opened Wrappers

  datatype SystemType = Unknown | OculusQuest | OculusQuest2
  {
    function SystemName(): string
    {
      match this
      case Unknown => ""
      case OculusQuest => "Oculus Quest"
      case OculusQuest2 => "Oculus Quest2"
    }
  }

  const Values: seq<SystemType> := [Unknown, OculusQuest, OculusQuest2]

  function Name(s: SystemType): string { s.SystemName() }

  /** `toSystemType`: `None` stands for Kotlin's null argument. */
  function ToSystemType(value: Option<string>): (r: SystemType)
    ensures r == Unknown || (value.Some? && Name(r) == value.value)
  {
    if value.None? then Unknown
    else SeqOps.FindFirst(Values, Name, value.value, Unknown)
  }

  lemma NamesDistinct()
    ensures forall a, b :: 0 <= a < b < |Values| ==> Name(Values[a]) != Name(Values[b])
    ensures forall s: SystemType :: s in Values
  {
    forall s: SystemType ensures s in Values {
      match s
      case Unknown => assert Values[0] == s;
      case OculusQuest => assert Values[1] == s;
      case OculusQuest2 => assert Values[2] == s;
    }
  }

  /** Null and every unlisted name (the empty one included) give `Unknown`; the two headset names match exactly. */
  lemma Lookup(value: Option<string>)
    ensures value.None? ==> ToSystemType(value) == Unknown
    ensures value == Some("Oculus Quest") ==> ToSystemType(value) == OculusQuest
    ensures value == Some("Oculus Quest2") ==> ToSystemType(value) == OculusQuest2
    ensures value.Some? && value.value != "Oculus Quest" && value.value != "Oculus Quest2" ==>
              ToSystemType(value) == Unknown
  {
    NamesDistinct();
    SeqOps.FindFirstOfKey(Values, Name, 1, Unknown);
    SeqOps.FindFirstOfKey(Values, Name, 2, Unknown);
  }

  /** Round trip: every system type is recovered from its own name. */
  lemma RoundTrip(s: SystemType)
    ensures ToSystemType(Some(s.SystemName())) == s
  {
    Lookup(Some(s.SystemName()));
  }
}
