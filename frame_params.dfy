/**
  `ovrApplFrameIn` from `SampleCommon/Src/FrameParams.h`: the per-frame
  input record, its button and touch bit constants, and the edge tests
  `Clicked`, `Touched`, `HeadsetMounted` and `HeadsetUnMounted`.
 */
module FrameParams {

  const kButtonA: bv32 := 1 << 0
  const kButtonB: bv32 := 1 << 1
  const kButtonX: bv32 := 1 << 2
  const kButtonY: bv32 := 1 << 3
  const kButtonMenu: bv32 := 1 << 4
  const kGripTrigger: bv32 := 1 << 5
  const kTrigger: bv32 := 1 << 6
  const kJoystick: bv32 := 1 << 7
  const kTouchJoystick: bv32 := 1 << 8
  const kTouchTrigger: bv32 := 1 << 9
  const kTouchThumbrest: bv32 := 1 << 10

  /** The constants in declaration order. */
  const AllConstants: seq<bv32> :=
    [kButtonA, kButtonB, kButtonX, kButtonY, kButtonMenu, kGripTrigger, kTrigger, kJoystick,
     kTouchJoystick, kTouchTrigger, kTouchThumbrest]

  /** The button and headset fields the edge tests read (all other fields are left out). */
  datatype FrameIn = FrameIn(
    allButtons: bv32,
    allTouches: bv32,
    lastFrameAllButtons: bv32,
    lastFrameAllTouches: bv32,
    headsetIsMounted: bool,
    lastFrameHeadsetIsMounted: bool)

  /** The field initialisers: no buttons, no touches, headset mounted. */
  const Initial: FrameIn := FrameIn(0, 0, 0, 0, true, true)

  /** A release edge on mask `b`: some bit of `b` was down last frame and none is down now. */
  predicate Clicked(f: FrameIn, b: bv32)
  {
    var isDown := (b & f.allButtons) != 0;
    var wasDown := (b & f.lastFrameAllButtons) != 0;
    wasDown && !isDown
  }

  predicate Touched(f: FrameIn, t: bv32)
  {
    var isDown := (t & f.allTouches) != 0;
    var wasDown := (t & f.lastFrameAllTouches) != 0;
    wasDown && !isDown
  }

  predicate HeadsetMounted(f: FrameIn)
  {
    !f.lastFrameHeadsetIsMounted && f.headsetIsMounted
  }

  predicate HeadsetUnMounted(f: FrameIn)
  {
    f.lastFrameHeadsetIsMounted && !f.headsetIsMounted
  }

  /** Bit `k` of `x` is set. */
  predicate BitSet(x: bv32, k: nat)
    requires k < 32
  {
    (x >> k) & 1 == 1
  }

  /** The constants are pairwise distinct single bits: constant i is bit i. */
  lemma ConstantsAreDistinctBits()
    ensures |AllConstants| == 11
    ensures forall i :: 0 <= i < |AllConstants| ==> AllConstants[i] == 1 << i
    ensures forall i, j :: 0 <= i < j < |AllConstants| ==> AllConstants[i] & AllConstants[j] == 0
  {
  }

  /**
    For each button or touch constant (constant k is `1 << k`, by
    `ConstantsAreDistinctBits`), Clicked is exactly "its bit was set last
    frame and is clear now".
   */
  lemma ClickedIsReleaseEdge(f: FrameIn, k: nat)
    requires k < |AllConstants|
    ensures Clicked(f, 1 << k) <==> BitSet(f.lastFrameAllButtons, k) && !BitSet(f.allButtons, k)
  {
    SingleBit(f.allButtons, k);
    SingleBit(f.lastFrameAllButtons, k);
  }

  /** The same for Touched on the touch masks. */
  lemma TouchedIsReleaseEdge(f: FrameIn, k: nat)
    requires k < |AllConstants|
    ensures Touched(f, 1 << k) <==> BitSet(f.lastFrameAllTouches, k) && !BitSet(f.allTouches, k)
  {
    SingleBit(f.allTouches, k);
    SingleBit(f.lastFrameAllTouches, k);
  }

  lemma SingleBit(x: bv32, k: nat)
    requires k < 11
    ensures ((1 << k) & x != 0) <==> BitSet(x, k)
  {
    if k == 0 {} else if k == 1 {} else if k == 2 {} else if k == 3 {} else if k == 4 {}
    else if k == 5 {} else if k == 6 {} else if k == 7 {} else if k == 8 {} else if k == 9 {}
    else {}
  }

  /** No click without a change of the button state, and no touch release without a change of the touch state. */
  lemma NoEdgeWithoutChange(f: FrameIn, b: bv32)
    ensures f.allButtons == f.lastFrameAllButtons ==> !Clicked(f, b)
    ensures f.allTouches == f.lastFrameAllTouches ==> !Touched(f, b)
  {
  }

  /** Mounting and unmounting are never both reported, and neither when the mount state is unchanged. */
  lemma MountEdgesExclusive(f: FrameIn)
    ensures !(HeadsetMounted(f) && HeadsetUnMounted(f))
    ensures f.headsetIsMounted == f.lastFrameHeadsetIsMounted ==> !HeadsetMounted(f) && !HeadsetUnMounted(f)
    ensures HeadsetMounted(f) || HeadsetUnMounted(f) <==> f.headsetIsMounted != f.lastFrameHeadsetIsMounted
  {
  }
}
