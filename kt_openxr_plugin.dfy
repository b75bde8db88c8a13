/**
  `OpenXRPlugin.kt`: the Godot Android plugin. It records once whether the
  two native libraries loaded, guards every native call on that flag, and
  keeps a registry of event listeners to which the six native callbacks
  fan out.
 */
module OpenXRPluginKt {
  import SeqOps

  /** A registered listener, compared by equality as `ConcurrentLinkedQueue.remove` does. */
  type Listener = nat

  datatype Event = HeadsetMounted | HeadsetUnmounted | FocusGained | FocusLost | SessionBegun | SessionEnding

  /** One invocation of a listener method during a fan-out. */
  datatype Call = Call(listener: Listener, event: Event)

  /** The two native entry points the lifecycle callbacks reach. */
  datatype NativeCall = InitializeWrapper | UninitializeWrapper

  /** A native call, and whether it is posted with `runOnRenderThread` rather than made directly. */
  datatype Dispatch = Dispatch(call: NativeCall, onRenderThread: bool)

  const PluginName: string := "OpenXR"
  const GDNativeLibrariesPaths: set<string> := {"addons/godot-openxr/config/godot_openxr.gdnlib"}

  /**
    The companion object's initialiser: `openxr_loader` is loaded first and
    `godot_openxr` second; a link error in either leaves the flag false.
   */
  function LoadSharedLibs(loaderLinks: bool, wrapperLinks: bool): (loaded: bool)
    ensures loaded <==> loaderLinks && wrapperLinks
  {
    if !loaderLinks then false
    else if !wrapperLinks then false
    else true
  }

  class OpenXRPlugin {
    /** `loadedSharedLibs`: set once when the class is initialised, never changed afterwards. */
    const loadedSharedLibs: bool
    /** `eventListeners`, in queue order. */
    var eventListeners: seq<Listener>

    constructor (loaderLinks: bool, wrapperLinks: bool)
      ensures loadedSharedLibs == LoadSharedLibs(loaderLinks, wrapperLinks)
      ensures eventListeners == []
    {
      loadedSharedLibs := LoadSharedLibs(loaderLinks, wrapperLinks);
      eventListeners := [];
    }

    function GetPluginName(): (name: string)
      ensures name == PluginName
    {
      "OpenXR"
    }

    function GetPluginGDNativeLibrariesPaths(): (paths: set<string>)
      ensures paths == GDNativeLibrariesPaths && |paths| == 1
    {
      {"addons/godot-openxr/config/godot_openxr.gdnlib"}
    }

    /** `invokeNative`: whether the body runs. */
    predicate InvokeNative()
      reads this
    {
      loadedSharedLibs
    }

    /** `invokeNativeWithDefault`: the body's value when loaded, else the default. */
    function InvokeNativeWithDefault<T>(defaultValue: T, body: T): (r: T)
      reads this
      ensures loadedSharedLibs ==> r == body
      ensures !loadedSharedLibs ==> r == defaultValue
    {
      if loadedSharedLibs then body else defaultValue
    }

    /** `invokeNative` around one native call: the calls that are made, none unless the libraries loaded. */
    function Guarded(body: Dispatch): (dispatched: seq<Dispatch>)
      reads this
      ensures |dispatched| <= 1
      ensures dispatched != [] <==> loadedSharedLibs
      ensures dispatched != [] ==> dispatched[0] == body
    {
      if InvokeNative() then [body] else []
    }

    /** `onGLSurfaceCreated`: `initializeWrapper`, called directly. */
    method OnGLSurfaceCreated() returns (dispatched: seq<Dispatch>)
      ensures dispatched == if loadedSharedLibs then [Dispatch(InitializeWrapper, false)] else []
    {
      dispatched := Guarded(Dispatch(InitializeWrapper, false));
    }

    /** `onMainDestroy`: `uninitializeWrapper`, posted to the render thread. */
    method OnMainDestroy() returns (dispatched: seq<Dispatch>)
      ensures dispatched == if loadedSharedLibs then [Dispatch(UninitializeWrapper, true)] else []
    {
      dispatched := Guarded(Dispatch(UninitializeWrapper, true));
    }

    method RegisterEventListener(listener: Listener)
      modifies this
      ensures eventListeners == old(eventListeners) + [listener]
    {
      eventListeners := eventListeners + [listener];
    }

    method UnregisterEventListener(listener: Listener)
      modifies this
      ensures eventListeners == SeqOps.RemoveFirst(old(eventListeners), listener)
      ensures multiset(eventListeners) == old(multiset(eventListeners)) - multiset{listener}
    {
      SeqOps.RemoveFirstMultiset(eventListeners, listener);
      eventListeners := SeqOps.RemoveFirst(eventListeners, listener);
    }

    /**
      The six `on...` callbacks: `eventListeners.forEach { it.on...() }`.
      Returns the calls made, in the order they are made.
     */
    method Notify(event: Event) returns (calls: seq<Call>)
      ensures |calls| == |eventListeners|
      ensures forall i :: 0 <= i < |calls| ==> calls[i] == Call(eventListeners[i], event)
    {
      calls := [];
      var i := 0;
      while i < |eventListeners|
        invariant 0 <= i <= |eventListeners|
        invariant |calls| == i
        invariant forall k :: 0 <= k < i ==> calls[k] == Call(eventListeners[k], event)
      {
        calls := calls + [Call(eventListeners[i], event)];
        i := i + 1;
      }
    }
  }

  /** Registering a listener and unregistering it again restores the registry's multiset, and the list itself when the listener was new. */
  lemma RegisterThenUnregister(listeners: seq<Listener>, l: Listener)
    ensures multiset(SeqOps.RemoveFirst(listeners + [l], l)) == multiset(listeners)
    ensures l !in listeners ==> SeqOps.RemoveFirst(listeners + [l], l) == listeners
  {
    SeqOps.AddThenRemove(listeners, l);
  }

  /** Each registered listener receives a notification as many times as it is registered. */
  lemma {:induction false} NotifiedOncePerRegistration(listeners: seq<Listener>, calls: seq<Call>, event: Event, l: Listener)
    requires |calls| == |listeners|
    requires forall i :: 0 <= i < |calls| ==> calls[i] == Call(listeners[i], event)
    ensures multiset(calls)[Call(l, event)] == multiset(listeners)[l]
  {
    if listeners != [] {
      var n := |listeners| - 1;
      NotifiedOncePerRegistration(listeners[..n], calls[..n], event, l);
      assert listeners == listeners[..n] + [listeners[n]];
      assert calls == calls[..n] + [calls[n]];
    }
  }
}
