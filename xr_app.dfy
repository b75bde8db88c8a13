/**
  The button and touch bookkeeping of the `XrApp` sample framework: each
  frame `SyncActionSets` rebuilds the `AllButtons` and `AllTouches` masks of
  the frame input from the controller actions and hands over the previous
  frame's masks, which the class keeps in two fields. The lifecycle and
  session handlers of the same class are in `NativeAppLifecycle`.
 */
module XrAppFramework {
  import opened FrameParams

  /** The controller action states the masks are built from (floats as reals). */
  datatype ControllerInput = ControllerInput(
    aPressed: bool,
    bPressed: bool,
    xPressed: bool,
    yPressed: bool,
    menuPressed: bool,
    leftIndexTrigger: real,
    rightIndexTrigger: real,
    leftGripTrigger: real,
    rightGripTrigger: real,
    thumbstickTouched: bool,
    thumbrestTouched: bool,
    triggerTouched: bool)

  /** An analogue trigger counts as pressed above this value. */
  const TRIGGER_THRESHOLD: real := 0.1

  const BUTTON_BITS: bv32 := kButtonA | kButtonB | kButtonX | kButtonY | kButtonMenu | kGripTrigger | kTrigger
  const TOUCH_BITS: bv32 := kTouchJoystick | kTouchThumbrest | kTouchTrigger

  /**
    The button mask of one frame: each button bit is set exactly when its
    control is pressed (the trigger and grip bits when either hand's trigger
    passes the threshold), and no other bit is set.
   */
  predicate ButtonsMatch(input: ControllerInput, mask: bv32)
  {
    ((mask & kButtonA != 0) <==> input.aPressed)
    && ((mask & kButtonB != 0) <==> input.bPressed)
    && ((mask & kButtonX != 0) <==> input.xPressed)
    && ((mask & kButtonY != 0) <==> input.yPressed)
    && ((mask & kButtonMenu != 0) <==> input.menuPressed)
    && ((mask & kTrigger != 0) <==>
        input.leftIndexTrigger > TRIGGER_THRESHOLD || input.rightIndexTrigger > TRIGGER_THRESHOLD)
    && ((mask & kGripTrigger != 0) <==>
        input.leftGripTrigger > TRIGGER_THRESHOLD || input.rightGripTrigger > TRIGGER_THRESHOLD)
    && mask & !BUTTON_BITS == 0
  }

  /** The touch mask of one frame, in the same way. */
  predicate TouchesMatch(input: ControllerInput, mask: bv32)
  {
    ((mask & kTouchJoystick != 0) <==> input.thumbstickTouched)
    && ((mask & kTouchThumbrest != 0) <==> input.thumbrestTouched)
    && ((mask & kTouchTrigger != 0) <==> input.triggerTouched)
    && mask & !TOUCH_BITS == 0
  }

  /** `b` when `on` holds, else no bit. */
  function BitIf(on: bool, b: bv32): (mask: bv32)
    ensures mask == 0 || mask == b
  {
    if on then b else 0
  }

  /** The OR of the bits of the pressed buttons and of the triggers past the threshold. */
  function ButtonMask(input: ControllerInput): (mask: bv32)
    ensures ButtonsMatch(input, mask)
  {
    var trigger := input.leftIndexTrigger > TRIGGER_THRESHOLD || input.rightIndexTrigger > TRIGGER_THRESHOLD;
    var grip := input.leftGripTrigger > TRIGGER_THRESHOLD || input.rightGripTrigger > TRIGGER_THRESHOLD;
    BitIf(input.aPressed, kButtonA) | BitIf(input.bPressed, kButtonB) | BitIf(input.xPressed, kButtonX)
    | BitIf(input.yPressed, kButtonY) | BitIf(input.menuPressed, kButtonMenu)
    | BitIf(trigger, kTrigger) | BitIf(grip, kGripTrigger)
  }

  /** The OR of the bits of the touched controls. */
  function TouchMask(input: ControllerInput): (mask: bv32)
    ensures TouchesMatch(input, mask)
  {
    BitIf(input.thumbstickTouched, kTouchJoystick) | BitIf(input.thumbrestTouched, kTouchThumbrest)
    | BitIf(input.triggerTouched, kTouchTrigger)
  }

  class XrApp {
    var lastFrameAllButtons: bv32
    var lastFrameAllTouches: bv32

    /** Both masks start empty. */
    constructor ()
      ensures lastFrameAllButtons == 0 && lastFrameAllTouches == 0
    {
      lastFrameAllButtons := 0;
      lastFrameAllTouches := 0;
    }

    /**
      The mask part of `SyncActionSets`: the frame gets last frame's masks
      and freshly OR-accumulated ones, which are kept for the next frame.
      The other fields of the frame input are passed through.
     */
    method SyncButtons(input: ControllerInput, frame: FrameIn) returns (out: FrameIn)
      modifies this
      ensures out.lastFrameAllButtons == old(lastFrameAllButtons)
      ensures out.lastFrameAllTouches == old(lastFrameAllTouches)
      ensures ButtonsMatch(input, out.allButtons)
      ensures TouchesMatch(input, out.allTouches)
      ensures lastFrameAllButtons == out.allButtons && lastFrameAllTouches == out.allTouches
      ensures out.headsetIsMounted == frame.headsetIsMounted
      ensures out.lastFrameHeadsetIsMounted == frame.lastFrameHeadsetIsMounted
    {
      var buttons := ButtonMask(input);
      var touches := TouchMask(input);
      out := frame.(lastFrameAllButtons := lastFrameAllButtons, allButtons := buttons,
                    lastFrameAllTouches := lastFrameAllTouches, allTouches := touches);
      lastFrameAllButtons := buttons;
      lastFrameAllTouches := touches;
    }
  }

  /**
    Over two synced frames, `Clicked` on a button reports exactly its
    release between them, and `Touched` on a touch control exactly the end
    of the touch.
   */
  lemma ClickedIsRelease(f: FrameIn, previous: ControllerInput, current: ControllerInput)
    requires ButtonsMatch(previous, f.lastFrameAllButtons) && ButtonsMatch(current, f.allButtons)
    requires TouchesMatch(previous, f.lastFrameAllTouches) && TouchesMatch(current, f.allTouches)
    ensures Clicked(f, kButtonA) <==> previous.aPressed && !current.aPressed
    ensures Clicked(f, kButtonMenu) <==> previous.menuPressed && !current.menuPressed
    ensures Clicked(f, kTrigger) <==>
      (previous.leftIndexTrigger > TRIGGER_THRESHOLD || previous.rightIndexTrigger > TRIGGER_THRESHOLD)
      && !(current.leftIndexTrigger > TRIGGER_THRESHOLD || current.rightIndexTrigger > TRIGGER_THRESHOLD)
    ensures !Clicked(f, kJoystick)
    ensures Touched(f, kTouchTrigger) <==> previous.triggerTouched && !current.triggerTouched
  {
    assert kButtonA & f.allButtons == f.allButtons & kButtonA;
    assert kButtonA & f.lastFrameAllButtons == f.lastFrameAllButtons & kButtonA;
    assert kButtonMenu & f.allButtons == f.allButtons & kButtonMenu;
    assert kButtonMenu & f.lastFrameAllButtons == f.lastFrameAllButtons & kButtonMenu;
    assert kTrigger & f.allButtons == f.allButtons & kTrigger;
    assert kTrigger & f.lastFrameAllButtons == f.lastFrameAllButtons & kTrigger;
    assert kTouchTrigger & f.allTouches == f.allTouches & kTouchTrigger;
    assert kTouchTrigger & f.lastFrameAllTouches == f.lastFrameAllTouches & kTouchTrigger;
    JoystickBitUnused(f.lastFrameAllButtons);
  }

  /** `kJoystick` is not among the bits the framework ever sets. */
  lemma JoystickBitUnused(mask: bv32)
    requires mask & !BUTTON_BITS == 0
    ensures kJoystick & mask == 0
  {
  }
}
