/**
  `src/OXRCalls.c`: the C version of the OpenXR layer. Modelled here are
  the `openxr_data_singleton` with its use count and its initialisation
  failure, the rejection of an all-zero orientation, the event loop of
  `process_openxr` that stops the session, and the guard of
  `get_external_texture_for_eye`. The binding layout, the name search
  and the swapchain maximum are those of `OpenXRCommon`.
 */
module OXRCalls {
  import opened OpenXRCommon

  const XR_SESSION_STATE_UNKNOWN: int := 0
  const XR_SESSION_STATE_STOPPING: int := 6

  /**
    `openxr_data_struct`: the use count of the shared data. `openxr_get_data`
    never sets `use_count` after `godot_alloc`; the model starts it at 1,
    the count the get evidently intends (the as-written get is
    `LegacyOpenXRApi.AfterGetAsWritten`).
   */
  class OpenXRData {
    var useCount: int

    constructor ()
      ensures useCount == 1
    {
      useCount := 1;
    }
  }

  /** `openxr_data_singleton`. */
  class OpenXRDataSingleton {
    var singleton: OpenXRData?

    function State(): (s: Singleton)
      reads this, singleton
    {
      if singleton == null then Released else Live(singleton.useCount)
    }

    constructor ()
      ensures State() == Released
    {
      singleton := null;
    }

    /**
      `openxr_get_data`: an existing object gains a user; otherwise the
      object is allocated and `init_openxr` run, and either failing leaves
      the singleton null (the allocation is freed) and returns null.
     */
    method OpenXRGetData(allocationOk: bool, initOk: bool) returns (data: OpenXRData?)
      modifies this, singleton
      ensures State() == AfterGet(old(State()), allocationOk && initOk)
      ensures data == singleton
      ensures old(singleton) != null ==> data == old(singleton)
      ensures old(singleton) == null ==> (data == null <==> !(allocationOk && initOk))
    {
      if singleton != null {
        singleton.useCount := singleton.useCount + 1;
      } else if allocationOk {
        var created := new OpenXRData();
        if initOk {
          singleton := created;
        } else {
          singleton := null;
        }
      }
      data := singleton;
    }

    /** `openxr_release_data`: count down, or deinitialise and free the last reference. */
    method OpenXRReleaseData()
      modifies this, singleton
      ensures State() == AfterRelease(old(State()))
      ensures singleton == null || singleton == old(singleton)
    {
      if singleton == null {
        return;
      } else if singleton.useCount > 1 {
        singleton.useCount := singleton.useCount - 1;
      } else {
        singleton := null;
      }
    }
  }

  /** An `XrQuaternionf`. */
  datatype Quaternion = Quaternion(x: real, y: real, z: real, w: real)

  /**
    `_transform_from_rot_pos`: whether a transform is produced. An all-zero
    orientation, which a runtime reports for a pose it does not know, is
    refused; the transform itself is not modelled.
   */
  function TransformFromRotPos(orientation: Quaternion): (ok: bool)
    ensures ok <==> orientation != Quaternion(0.0, 0.0, 0.0, 0.0)
  {
    !(orientation.x == 0.0 && orientation.y == 0.0 && orientation.z == 0.0 && orientation.w == 0.0)
  }

  /** The events `process_openxr` reacts to; every other event type only logs. */
  datatype Event = InstanceLossPending | SessionStateChanged(state: int) | OtherEvent

  /** Whether the event ends the current `process_openxr` call, stopping the session. */
  predicate Stops(e: Event)
  {
    e.InstanceLossPending? || (e.SessionStateChanged? && e.state >= XR_SESSION_STATE_STOPPING)
  }

  /** Session state, running flag and whether the call returned early, after polling. */
  datatype PollState = PollState(state: int, running: bool, stopped: bool)

  /** One event of the loop. */
  function Step(p: PollState, e: Event): (q: PollState)
    ensures q.stopped <==> Stops(e)
  {
    match e
    case InstanceLossPending => PollState(p.state, false, true)
    case SessionStateChanged(s) =>
      if s >= XR_SESSION_STATE_STOPPING then PollState(s, false, true) else PollState(s, p.running, false)
    case OtherEvent => PollState(p.state, p.running, false)
  }

  /** The event loop as a function of the queued events, oldest first. */
  function AfterEvents(p: PollState, events: seq<Event>): (q: PollState)
    ensures p.stopped ==> q == p
    ensures q.stopped <==> p.stopped || exists i :: 0 <= i < |events| && Stops(events[i])
    ensures q.stopped && !p.stopped ==> !q.running
    decreases |events|
  {
    if p.stopped || events == [] then p
    else
      var e := events[0];
      var next := Step(p, e);
      assert forall i :: 1 <= i < |events| ==> events[i] == events[1..][i - 1];
      AfterEvents(next, events[1..])
  }

  /** Events queued behind the one that stopped the session are left unread. */
  lemma {:induction false} EventsAfterStopIgnored(p: PollState, events: seq<Event>, i: int)
    requires 0 <= i < |events| && Stops(events[i])
    ensures AfterEvents(p, events) == AfterEvents(p, events[..i + 1])
    decreases i
  {
    if !p.stopped && i > 0 {
      var e := events[0];
      var next := Step(p, e);
      assert events[..i + 1][0] == e;
      assert events[..i + 1][1..] == events[1..][..i];
      EventsAfterStopIgnored(next, events[1..], i - 1);
    }
  }

  /** The first stopping event decides: a state change records its state, and either kind stops running. */
  lemma {:induction false} FirstStopDecides(p: PollState, events: seq<Event>, i: int)
    requires !p.stopped && 0 <= i < |events| && Stops(events[i])
    requires forall j :: 0 <= j < i ==> !Stops(events[j])
    ensures AfterEvents(p, events).stopped && !AfterEvents(p, events).running
    ensures events[i].SessionStateChanged? ==> AfterEvents(p, events).state == events[i].state
    decreases i
  {
    if i > 0 {
      var e := events[0];
      var next := Step(p, e);
      FirstStopDecides(next, events[1..], i - 1);
    }
  }

  class XrApi {
    var state: int
    var running: bool

    function Poll(): PollState
      reads this
    {
      PollState(state, running, false)
    }

    constructor ()
      ensures state == XR_SESSION_STATE_UNKNOWN && !running
    {
      state := XR_SESSION_STATE_UNKNOWN;
      running := false;
    }

    /**
      The `xrPollEvent` loop at the top of `process_openxr`: `events` are
      the events answered with `XR_SUCCESS`, and `finalPoll` the result
      that ended the loop. The frame goes on only when no event stopped the
      session and the queue was drained (`XR_EVENT_UNAVAILABLE`).
     */
    method ProcessEvents(events: seq<Event>, finalPoll: int) returns (continueFrame: bool)
      modifies this
      ensures Poll() == (var q := AfterEvents(old(Poll()), events); PollState(q.state, q.running, false))
      ensures continueFrame <==> !AfterEvents(old(Poll()), events).stopped && finalPoll == XR_EVENT_UNAVAILABLE
    {
      var i := 0;
      while i < |events|
        invariant 0 <= i <= |events|
        invariant AfterEvents(old(Poll()), events) == AfterEvents(Poll(), events[i..])
      {
        assert events[i..][0] == events[i] && events[i..][1..] == events[i + 1..];
        match events[i] {
          case InstanceLossPending =>
            running := false;
            return false;
          case SessionStateChanged(s) =>
            state := s;
            if s >= XR_SESSION_STATE_STOPPING {
              running := false;
              return false;
            }
          case OtherEvent =>
        }
        i := i + 1;
      }
      if finalPoll != XR_EVENT_UNAVAILABLE {
        return false;
      }
      continueFrame := true;
    }
  }

  /**
    `get_external_texture_for_eye`: the image of the acquired buffer, with
    `has_support` set, once the session state is known and buffers exist;
    otherwise 0 and `has_support` untouched.
   */
  function ExternalTextureForEye(state: int, hasBufferIndex: bool, image: int): (r: (int, bool))
    ensures r.1 <==> state > XR_SESSION_STATE_UNKNOWN && hasBufferIndex
    ensures r.0 == if r.1 then image else 0
  {
    if state > XR_SESSION_STATE_UNKNOWN && hasBufferIndex then (image, true) else (0, false)
  }
}
