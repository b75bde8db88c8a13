/**
  The display-mode schedule of the passthrough sample: every active frame
  advances an effective frame number, which a button press can freeze, and
  every 400 effective frames the sample leaves one passthrough mode for the
  next of six. The session handlers of the sample's `App` are those of
  `NativeAppLifecycle`.
 */
module XrPassthroughSample {
  import opened Wrappers

  /** Frames spent in each mode. */
  const FRAMES_PER_MODE: int := 400

  /** `Mode_NumModes`: Basic, DynamicRamp, GreenRampYellowEdges, Masked, ProjQuad and Stopped. */
  const NUM_MODES: int := 6

  /** C's `/` on `int`, which truncates toward zero. */
  function CDiv(a: int, b: int): (q: int)
    requires b > 0
    ensures a >= 0 ==> q == a / b
    ensures a < 0 ==> q == -((-a) / b)
  {
    if a >= 0 then a / b else -((-a) / b)
  }

  /** C's `%` on `int`, whose sign follows the dividend. */
  function CRem(a: int, b: int): (r: int)
    requires b > 0
    ensures a == CDiv(a, b) * b + r
    ensures a >= 0 ==> 0 <= r < b
    ensures a < 0 ==> -b < r <= 0
  {
    a - CDiv(a, b) * b
  }

  /** The mode of effective frame `n`. */
  function ModeOf(n: int): (mode: int)
    ensures n >= 0 ==> mode == (n / FRAMES_PER_MODE) % NUM_MODES
    ensures n >= -1 ==> 0 <= mode < NUM_MODES
  {
    CRem(CDiv(n, FRAMES_PER_MODE), NUM_MODES)
  }

  /** `prevMode`: the frame number is shifted by a whole cycle less one before dividing. */
  function PrevModeOf(n: int): (mode: int)
    ensures n >= -1 ==> mode == ((n + FRAMES_PER_MODE * NUM_MODES - 1) / FRAMES_PER_MODE) % NUM_MODES
    ensures n >= -1 ==> 0 <= mode < NUM_MODES
  {
    CRem(CDiv(n + FRAMES_PER_MODE * NUM_MODES - 1, FRAMES_PER_MODE), NUM_MODES)
  }

  /** From effective frame -1 on, both formulas give one of the six modes. */
  lemma ModesInRange(n: int)
    requires n >= -1
    ensures 0 <= ModeOf(n) < NUM_MODES && 0 <= PrevModeOf(n) < NUM_MODES
  {
  }

  /** `prevMode` is the mode of the previous effective frame, and 5 (Stopped) at frame 0. */
  lemma PrevModeIsPreviousFrame(n: int)
    requires n >= 0
    ensures n >= 1 ==> PrevModeOf(n) == ModeOf(n - 1)
    ensures n == 0 ==> PrevModeOf(n) == NUM_MODES - 1
  {
    if n >= 1 {
      var q := (n - 1) / FRAMES_PER_MODE;
      assert (n + FRAMES_PER_MODE * NUM_MODES - 1) / FRAMES_PER_MODE == q + NUM_MODES;
      assert (q + NUM_MODES) % NUM_MODES == q % NUM_MODES;
    }
  }

  /** On non-negative frames both formulas are plain Euclidean arithmetic. */
  lemma ModeOfNonNegative(n: int)
    requires n >= 0
    ensures ModeOf(n) == (n / FRAMES_PER_MODE) % NUM_MODES
  {
    assert CDiv(n, FRAMES_PER_MODE) == n / FRAMES_PER_MODE;
  }

  /** The mode changes exactly on the frames that are multiples of 400. */
  lemma ModeChangesEvery400(n: int)
    requires n >= 0
    ensures ModeOf(n) != PrevModeOf(n) <==> n % FRAMES_PER_MODE == 0
  {
    PrevModeIsPreviousFrame(n);
    ModeOfNonNegative(n);
    if n >= 1 {
      ModeOfNonNegative(n - 1);
      var q := n / FRAMES_PER_MODE;
      if n % FRAMES_PER_MODE == 0 {
        assert (n - 1) / FRAMES_PER_MODE == q - 1;
        assert q % NUM_MODES != (q - 1) % NUM_MODES;
      } else {
        assert (n - 1) / FRAMES_PER_MODE == q;
      }
    }
  }

  /**
    Effective frame -1, reached when the schedule is paused on the first
    active frame: truncating division still reports a change from Stopped
    to Basic there.
   */
  lemma FrameMinusOne()
    ensures ModeOf(-1) == 0 && PrevModeOf(-1) == NUM_MODES - 1
  {
  }

  /** The `XrActionStateBoolean` of the pause button. */
  datatype ToggleState = ToggleState(typeSet: bool, changedSinceLastSync: bool, currentState: bool)

  /** A press: the state is valid, changed since the last sync, and now down. */
  predicate Pressed(t: ToggleState)
  {
    t.typeSet && t.changedSinceLastSync && t.currentState
  }

  /** The two modes a frame compares. */
  datatype ModeStep = ModeStep(mode: int, prevMode: int)

  /** The loop variables `frameCount`, `framesCyclePaused` and `cyclePaused` of the main loop. */
  class ModeCycle {
    var frameCount: int
    var framesCyclePaused: int
    var cyclePaused: bool

    /** Every paused frame was counted, so the effective frame is never below -1. */
    ghost predicate Valid()
      reads this
    {
      frameCount >= -1 && 0 <= framesCyclePaused <= frameCount + 1
    }

    /** The effective frame number the modes are computed from. */
    function Effective(): (n: int)
      reads this
      requires Valid()
      ensures n >= -1
    {
      frameCount - framesCyclePaused
    }

    /** Before the loop: frame -1, nothing paused. */
    constructor ()
      ensures Valid() && frameCount == -1 && framesCyclePaused == 0 && !cyclePaused
    {
      frameCount := -1;
      framesCyclePaused := 0;
      cyclePaused := false;
    }

    /**
      One iteration of the main loop: count the frame; without an active
      session reset both counters and skip the frame; otherwise flip the
      pause on a press, count a paused frame, and compute the two modes.
     */
    method Frame(sessionActive: bool, toggle: ToggleState) returns (step: Option<ModeStep>)
      requires Valid()
      modifies this
      ensures Valid()
      ensures !sessionActive ==>
        step == None && frameCount == -1 && framesCyclePaused == 0 && cyclePaused == old(cyclePaused)
      ensures sessionActive ==> frameCount == old(frameCount) + 1
      ensures sessionActive ==> (cyclePaused <==> old(cyclePaused) != Pressed(toggle))
      ensures sessionActive && cyclePaused ==>
        framesCyclePaused == old(framesCyclePaused) + 1 && Effective() == old(Effective())
      ensures sessionActive && !cyclePaused ==>
        framesCyclePaused == old(framesCyclePaused) && Effective() == old(Effective()) + 1
      ensures sessionActive ==> step == Some(ModeStep(ModeOf(Effective()), PrevModeOf(Effective())))
    {
      frameCount := frameCount + 1;
      if !sessionActive {
        frameCount := -1;
        framesCyclePaused := 0;
        return None;
      }
      if Pressed(toggle) {
        cyclePaused := !cyclePaused;
      }
      if cyclePaused {
        framesCyclePaused := framesCyclePaused + 1;
      }
      var n := frameCount - framesCyclePaused;
      step := Some(ModeStep(ModeOf(n), PrevModeOf(n)));
    }
  }
}
