/**
  `XrPerfSettingsLevelEXT` of the `XR_EXT_performance_settings` extension,
  and the CPU/GPU "level" integer (0..3) that the native samples keep in
  their application state and translate when the session becomes ready.
 */
module XrPerfSettingsLevel {

  datatype PerfLevel = PowerSavings | SustainedLow | SustainedHigh | Boost
  {
    /** The enumerant's value in the OpenXR headers. */
    function Code(): int
    {
      match this
      case PowerSavings => 0
      case SustainedLow => 25
      case SustainedHigh => 50
      case Boost => 75
    }
  }

  /** The sample-level integer that selects each performance level. */
  function SampleLevel(l: PerfLevel): (level: int)
    ensures 0 <= level <= 3
  {
    match l
    case PowerSavings => 0
    case SustainedLow => 1
    case SustainedHigh => 2
    case Boost => 3
  }

  /**
    The `switch (CpuLevel)` / `switch (GpuLevel)` of the samples: 0..3 pick
    the four levels in order, anything else keeps the initial
    `SUSTAINED_HIGH`.
   */
  function FromSampleLevel(level: int): (r: PerfLevel)
    ensures 0 <= level <= 3 ==> SampleLevel(r) == level
    ensures !(0 <= level <= 3) ==> r == SustainedHigh
  {
    if level == 0 then PowerSavings
    else if level == 1 then SustainedLow
    else if level == 3 then Boost
    else SustainedHigh
  }

  /** Every level is selected by its own sample level, and the codes increase with it. */
  lemma SampleLevelRoundTrip(l: PerfLevel, m: PerfLevel)
    ensures FromSampleLevel(SampleLevel(l)) == l
    ensures SampleLevel(l) < SampleLevel(m) <==> l.Code() < m.Code()
  {
  }
}
