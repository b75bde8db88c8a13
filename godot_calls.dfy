/**
  `src/GodotCalls.cpp`: the global pointers to Godot's GDNative API
  structures, and the version rules under which
  `godot_openxr_gdnative_init` takes the ARVR and NativeScript extensions.
  Also the capability flags of Godot's ARVR interface, which both ARVR
  interfaces report.
 */
module GodotCalls {
  import opened Wrappers

  // ---------------------------------------------------------------------
  // ARVR interface capabilities (Godot's `ARVRInterface::Capabilities`)

  const ARVR_MONO: int := 1
  const ARVR_STEREO: int := 2
  const ARVR_AR: int := 4
  const ARVR_EXTERNAL: int := 8

  /** Whether the single-bit flag `flag` is set in `caps`; Godot 4's `XRInterface` capabilities are tested the same way. */
  predicate HasCapability(caps: int, flag: int)
    requires flag > 0
  {
    (caps / flag) % 2 == 1
  }

  // ---------------------------------------------------------------------
  // Extension look-up

  /** The `type` of a GDNative extension structure. */
  datatype ExtensionType = ExtArvr | ExtNativeScript | ExtOther

  /** An entry of `api->extensions`: its type and its (unsigned) API version. */
  datatype Extension = Extension(kind: ExtensionType, major: nat, minor: nat)

  /** `(major, minor)` is at least `(requiredMajor, requiredMinor)` in lexicographic order. */
  predicate VersionAtLeast(major: int, minor: int, requiredMajor: int, requiredMinor: int)
  {
    major > requiredMajor || (major == requiredMajor && minor >= requiredMinor)
  }

  /**
    The version check for one extension: ARVR needs 1.1 or later,
    NativeScript 1.0 or later; other types are never taken.
   */
  function Accepted(e: Extension): (ok: bool)
    ensures e.kind == ExtArvr ==> (ok <==> e.major > 1 || (e.major == 1 && e.minor >= 1))
    ensures e.kind == ExtNativeScript ==> (ok <==> e.major >= 1)
    ensures e.kind == ExtOther ==> !ok
  {
    match e.kind
    case ExtArvr => VersionAtLeast(e.major, e.minor, 1, 1)
    case ExtNativeScript => VersionAtLeast(e.major, e.minor, 1, 0)
    case ExtOther => false
  }

  /** Whether entry `i` is an accepted extension of the given type. */
  predicate Takes(extensions: seq<Extension>, kind: ExtensionType, i: int)
    requires 0 <= i < |extensions|
  {
    extensions[i].kind == kind && Accepted(extensions[i])
  }

  /**
    The pointer for `kind` after the loop over `extensions`: the last
    accepted extension of that type, or `previous` when there is none (the
    loop never clears a pointer).
   */
  function LastTaken(extensions: seq<Extension>, kind: ExtensionType, previous: Option<nat>): (r: Option<nat>)
    ensures r == previous || (r.Some? && r.value < |extensions| && Takes(extensions, kind, r.value))
    ensures r.Some? && r != previous ==> forall j :: r.value < j < |extensions| ==> !Takes(extensions, kind, j)
    ensures (forall j :: 0 <= j < |extensions| ==> !Takes(extensions, kind, j)) ==> r == previous
    ensures (exists j :: 0 <= j < |extensions| && Takes(extensions, kind, j)) ==>
              r.Some? && r.value < |extensions| && Takes(extensions, kind, r.value)
  {
    if extensions == [] then previous
    else
      var n := |extensions| - 1;
      if Takes(extensions, kind, n) then Some(n)
      else
        var init := extensions[..n];
        assert forall j :: 0 <= j < n ==> Takes(init, kind, j) == Takes(extensions, kind, j);
        LastTaken(init, kind, previous)
  }

  /** The three global API pointers; an extension pointer is the index of the entry it points at. */
  class GodotApis {
    var api: Option<int>
    var arvrApi: Option<nat>
    var nativescriptApi: Option<nat>

    constructor ()
      ensures api == None && arvrApi == None && nativescriptApi == None
    {
      api := None;
      arvrApi := None;
      nativescriptApi := None;
    }

    /**
      `godot_openxr_gdnative_init`: the core API is stored and every
      extension is checked in order, so the last accepted ARVR and
      NativeScript extensions win; a rejected version is only reported.
     */
    method GdnativeInit(coreApi: int, extensions: seq<Extension>)
      modifies this
      ensures api == Some(coreApi)
      ensures arvrApi == LastTaken(extensions, ExtArvr, old(arvrApi))
      ensures nativescriptApi == LastTaken(extensions, ExtNativeScript, old(nativescriptApi))
    {
      api := Some(coreApi);
      var i := 0;
      while i < |extensions|
        invariant 0 <= i <= |extensions|
        invariant api == Some(coreApi)
        invariant arvrApi == LastTaken(extensions[..i], ExtArvr, old(arvrApi))
        invariant nativescriptApi == LastTaken(extensions[..i], ExtNativeScript, old(nativescriptApi))
      {
        var e := extensions[i];
        assert extensions[..i + 1][..i] == extensions[..i];
        match e.kind {
          case ExtArvr =>
            if e.major > 1 || (e.major == 1 && e.minor >= 1) {
              arvrApi := Some(i);
            }
          case ExtNativeScript =>
            if e.major > 1 || (e.major == 1 && e.minor >= 0) {
              nativescriptApi := Some(i);
            }
          case ExtOther =>
        }
        i := i + 1;
      }
      assert extensions[..i] == extensions;
    }

    /** `godot_gdnative_terminate`: all three pointers are cleared. */
    method GdnativeTerminate()
      modifies this
      ensures api == None && arvrApi == None && nativescriptApi == None
    {
      api := None;
      nativescriptApi := None;
      arvrApi := None;
    }
  }
}
