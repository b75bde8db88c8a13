/**
  `XrSceneModel/Src/SceneModelXr.cpp`: the UUID hex codec, the semantic
  label colour table, the plane visualisation mode cycle and the
  scene-query scheduler that the main loop runs once per frame.
 */
module SceneModelXr {
  import Wrappers
  import Bytes

  /** A `uint8_t`. */
  type Byte = Bytes.Byte

  /** `XR_UUID_SIZE_EXT`. */
  const UUID_SIZE: nat := 16

  /** An `XrUuidEXT`: sixteen bytes. */
  type Uuid = s: seq<Byte> | |s| == UUID_SIZE witness seq(16, _ => 0)

  const HexDigits: string := "0123456789ABCDEF"

  /** The characters `hex2bin` accepts: `'0'..'9'` and `'A'..'F'`. */
  predicate IsHexDigit(c: char)
  {
    '0' <= c <= '9' || 'A' <= c <= 'F'
  }

  /** The nibble value `hex2bin` subtracts out of an accepted character. */
  function DigitValue(c: char): (d: nat)
    requires IsHexDigit(c)
    ensures d < 16
    ensures HexDigits[d] == c
  {
    if '0' <= c <= '9' then (c - '0') as nat else (c - 'A') as nat + 10
  }

  lemma DigitOfHexDigit(d: nat)
    requires d < 16
    ensures IsHexDigit(HexDigits[d]) && DigitValue(HexDigits[d]) == d
  {
  }

  /** The two characters `bin2hex` writes for one byte: high nibble first. */
  function HexPair(b: Byte): (r: string)
    ensures |r| == 2 && IsHexDigit(r[0]) && IsHexDigit(r[1])
  {
    DigitOfHexDigit(b / 16);
    DigitOfHexDigit(b % 16);
    [HexDigits[b / 16], HexDigits[b % 16]]
  }

  /** The string `bin2hex` produces. */
  function HexOf(src: seq<Byte>): (r: string)
    ensures |r| == 2 * |src|
  {
    if src == [] then [] else HexPair(src[0]) + HexOf(src[1..])
  }

  predicate AllHexDigits(s: string)
  {
    forall k :: 0 <= k < |s| ==> IsHexDigit(s[k])
  }

  /** The byte `hex2bin` assembles from two accepted digits. */
  function PairValue(c0: char, c1: char): (b: Byte)
    requires IsHexDigit(c0) && IsHexDigit(c1)
    ensures b / 16 == DigitValue(c0) && b % 16 == DigitValue(c1)
  {
    DigitValue(c0) * 16 + DigitValue(c1)
  }

  /** The bytes of an even-length string of accepted digits, two digits each. */
  function DecodePairs(hex: string): (r: seq<Byte>)
    requires |hex| % 2 == 0 && AllHexDigits(hex)
    ensures |r| == |hex| / 2
  {
    if hex == [] then []
    else
      assert AllHexDigits(hex[2..]) by {
        forall k | 0 <= k < |hex| - 2 ensures IsHexDigit(hex[2..][k]) { assert hex[2..][k] == hex[k + 2]; }
      }
      [PairValue(hex[0], hex[1])] + DecodePairs(hex[2..])
  }

  /** What `hex2bin` leaves in `dst`, or `None` when one of its assertions fails. */
  function DecodeHex(hex: string, size: nat): (r: Wrappers.Option<seq<Byte>>)
    ensures r.Some? <==> |hex| == 2 * size && AllHexDigits(hex)
    ensures r.Some? ==> |r.value| == size
  {
    if |hex| == 2 * size && AllHexDigits(hex) then Wrappers.Some(DecodePairs(hex)) else Wrappers.None
  }

  lemma {:induction false} HexOfAppend(a: seq<Byte>, b: Byte)
    ensures HexOf(a + [b]) == HexOf(a) + HexPair(b)
  {
    if a != [] {
      assert (a + [b])[1..] == a[1..] + [b];
      HexOfAppend(a[1..], b);
    } else {
      assert HexOf([b]) == HexPair(b) + HexOf([]);
    }
  }

  lemma {:induction false} DecodePairsAppend(hex: string, c0: char, c1: char)
    requires |hex| % 2 == 0 && AllHexDigits(hex) && IsHexDigit(c0) && IsHexDigit(c1)
    ensures AllHexDigits(hex + [c0, c1])
    ensures DecodePairs(hex + [c0, c1]) == DecodePairs(hex) + [PairValue(c0, c1)]
  {
    var h := hex + [c0, c1];
    assert AllHexDigits(h) by {
      forall k | 0 <= k < |h| ensures IsHexDigit(h[k]) { if k < |hex| { assert h[k] == hex[k]; } }
    }
    if hex != [] {
      assert h[2..] == hex[2..] + [c0, c1];
      assert AllHexDigits(hex[2..]) by {
        forall k | 0 <= k < |hex| - 2 ensures IsHexDigit(hex[2..][k]) { assert hex[2..][k] == hex[k + 2]; }
      }
      DecodePairsAppend(hex[2..], c0, c1);
      assert h[0] == hex[0] && h[1] == hex[1];
    } else {
      assert h[2..] == [];
    }
  }

  /** `bin2hex`. */
  method Bin2Hex(src: seq<Byte>) returns (res: string)
    ensures res == HexOf(src)
  {
    res := [];
    var i := 0;
    while i < |src|
      invariant 0 <= i <= |src|
      invariant res == HexOf(src[..i])
    {
      var c := src[i];
      res := res + [HexDigits[c / 16]];
      res := res + [HexDigits[c % 16]];
      assert src[..i + 1] == src[..i] + [c];
      HexOfAppend(src[..i], c);
      i := i + 1;
    }
    assert src[..i] == src;
  }

  /**
    `hex2bin`: the two-digit groups become bytes. `None` stands for the
    `assert`s that stop the program: a length other than `2 * size`, or a
    character outside `'0'..'9'`, `'A'..'F'` (so lower-case digits fail).
   */
  method Hex2Bin(hex: string, size: nat) returns (dst: Wrappers.Option<seq<Byte>>)
    ensures dst == DecodeHex(hex, size)
  {
    if |hex| != 2 * size {
      return Wrappers.None;
    }
    var out: seq<Byte> := [];
    var i := 0;
    while i < size
      invariant 0 <= i <= size
      invariant AllHexDigits(hex[..2 * i])
      invariant out == DecodePairs(hex[..2 * i])
    {
      var b := 0;
      var j := 0;
      while j < 2
        invariant 0 <= j <= 2
        invariant j == 1 ==> IsHexDigit(hex[2 * i]) && b == DigitValue(hex[2 * i]) * 16
        invariant j == 2 ==> IsHexDigit(hex[2 * i]) && IsHexDigit(hex[2 * i + 1]) && b == PairValue(hex[2 * i], hex[2 * i + 1])
        invariant j == 0 ==> b == 0
      {
        var c := hex[2 * i + j];
        var d;
        if '0' <= c <= '9' {
          d := (c - '0') as int;
        } else if 'A' <= c <= 'F' {
          d := (c - 'A') as int + 10;
        } else {
          assert !AllHexDigits(hex) by {
            assert !IsHexDigit(hex[2 * i + j]);
          }
          return Wrappers.None;
        }
        b := b + (if j == 0 then d * 16 else d);
        j := j + 1;
      }
      assert hex[..2 * (i + 1)] == hex[..2 * i] + [hex[2 * i], hex[2 * i + 1]];
      DecodePairsAppend(hex[..2 * i], hex[2 * i], hex[2 * i + 1]);
      out := out + [b];
      i := i + 1;
    }
    assert hex[..2 * i] == hex;
    dst := Wrappers.Some(out);
  }

  /** `uuidToHexString`: 32 upper-case hex characters. */
  method UuidToHexString(uuid: Uuid) returns (hex: string)
    ensures hex == HexOf(uuid) && |hex| == 2 * UUID_SIZE
  {
    hex := Bin2Hex(uuid);
  }

  /** `hexStringToUuid`. */
  method HexStringToUuid(hex: string) returns (uuid: Wrappers.Option<Uuid>)
    ensures uuid.Some? <==> DecodeHex(hex, UUID_SIZE).Some?
    ensures uuid.Some? ==> uuid.value == DecodeHex(hex, UUID_SIZE).value
  {
    var d := Hex2Bin(hex, UUID_SIZE);
    if d.Some? {
      var u: Uuid := d.value;
      uuid := Wrappers.Some(u);
    } else {
      uuid := Wrappers.None;
    }
  }

  /** Byte `i` becomes characters `2i` (its high nibble) and `2i + 1` (its low nibble). */
  lemma {:induction false} HexOfAt(src: seq<Byte>, i: nat)
    requires i < |src|
    ensures HexOf(src)[2 * i] == HexDigits[src[i] / 16]
    ensures HexOf(src)[2 * i + 1] == HexDigits[src[i] % 16]
  {
    var h := HexOf(src);
    assert h == HexPair(src[0]) + HexOf(src[1..]);
    if i > 0 {
      HexOfAt(src[1..], i - 1);
      assert h[2 * i] == HexOf(src[1..])[2 * (i - 1)];
      assert h[2 * i + 1] == HexOf(src[1..])[2 * (i - 1) + 1];
    }
  }

  /** Every character `bin2hex` writes is one of `0123456789ABCDEF`. */
  lemma {:induction false} HexOfCharset(src: seq<Byte>)
    ensures AllHexDigits(HexOf(src))
  {
    if src != [] {
      HexOfCharset(src[1..]);
      var h := HexOf(src);
      forall k | 0 <= k < |h| ensures IsHexDigit(h[k]) {
        if k >= 2 { assert h[k] == HexOf(src[1..])[k - 2]; }
      }
    }
  }

  /** Decoding what `bin2hex` wrote gives back the bytes. */
  lemma HexRoundTrip(src: seq<Byte>)
    ensures DecodeHex(HexOf(src), |src|) == Wrappers.Some(src)
  {
    HexOfCharset(src);
    DecodeOfHexOf(src);
  }

  lemma {:induction false} DecodeOfHexOf(src: seq<Byte>)
    ensures AllHexDigits(HexOf(src))
    ensures DecodePairs(HexOf(src)) == src
  {
    HexOfCharset(src);
    if src != [] {
      var h := HexOf(src);
      assert h[2..] == HexOf(src[1..]);
      DecodeOfHexOf(src[1..]);
      var b := src[0];
      DigitOfHexDigit(b / 16);
      DigitOfHexDigit(b % 16);
      assert PairValue(h[0], h[1]) == b;
    }
  }

  /** Encoding what `hex2bin` accepted gives back the very string. */
  lemma HexRoundTripBack(hex: string, size: nat)
    requires DecodeHex(hex, size).Some?
    ensures HexOf(DecodeHex(hex, size).value) == hex
  {
    HexOfDecode(hex);
  }

  lemma {:induction false} HexOfDecode(hex: string)
    requires |hex| % 2 == 0 && AllHexDigits(hex)
    ensures HexOf(DecodePairs(hex)) == hex
  {
    if hex != [] {
      var d := DecodePairs(hex);
      assert AllHexDigits(hex[2..]) by {
        forall k | 0 <= k < |hex| - 2 ensures IsHexDigit(hex[2..][k]) { assert hex[2..][k] == hex[k + 2]; }
      }
      HexOfDecode(hex[2..]);
      assert d[1..] == DecodePairs(hex[2..]);
      assert HexPair(d[0]) == hex[..2];
      assert hex == hex[..2] + hex[2..];
    }
  }

  /** Lower-case digits trip the assertion. */
  lemma LowerCaseRejected()
    ensures DecodeHex("ab", 1) == Wrappers.None
  {
    assert !IsHexDigit("ab"[0]);
  }

  /** `isValid`: is some byte of the UUID nonzero. */
  method IsValid(uuid: Uuid) returns (valid: bool)
    ensures valid <==> exists i :: 0 <= i < UUID_SIZE && uuid[i] > 0
  {
    var i := 0;
    while i < UUID_SIZE
      invariant 0 <= i <= UUID_SIZE
      invariant forall k :: 0 <= k < i ==> uuid[k] == 0
    {
      if uuid[i] > 0 {
        return true;
      }
      i := i + 1;
    }
    return false;
  }

  /** `XrColor4f`, with the `float` components taken as reals. */
  datatype Color4f = Color4f(r: real, g: real, b: real, a: real)

  const SemanticLabelToColorMap: map<string, Color4f> := map[
    "DESK" := Color4f(1.0, 0.0, 0.0, 0.2),
    "COUCH" := Color4f(0.0, 1.0, 0.0, 0.2),
    "FLOOR" := Color4f(0.2, 0.2, 0.8, 1.0),
    "CEILING" := Color4f(0.3, 0.3, 0.3, 1.0),
    "WALL_FACE" := Color4f(0.5, 0.5, 0.0, 1.0),
    "WINDOW_FRAME" := Color4f(0.0, 0.5, 0.6, 0.8),
    "DOOR_FRAME" := Color4f(0.0, 0.2, 0.2, 1.0),
    "OTHER" := Color4f(1.0, 0.0, 1.0, 0.2)]

  const DefaultColor: Color4f := Color4f(0.2, 0.2, 0.0, 0.2)

  /** `labels.substr(0, labels.find(","))`: everything before the first comma, or all of it. */
  function FirstLabel(labels: string): (first: string)
    ensures first <= labels
    ensures ',' !in first
    ensures |first| < |labels| ==> labels[|first|] == ','
  {
    if labels == [] then []
    else if labels[0] == ',' then []
    else [labels[0]] + FirstLabel(labels[1..])
  }

  /** `GetColorForSemanticLabels`. */
  function GetColorForSemanticLabels(labels: string): (color: Color4f)
    ensures labels == [] ==> color == DefaultColor
    ensures color == DefaultColor || color in SemanticLabelToColorMap.Values
  {
    if labels == [] then DefaultColor
    else
      var first := FirstLabel(labels);
      if first == [] || first !in SemanticLabelToColorMap then DefaultColor
      else SemanticLabelToColorMap[first]
  }

  /** The first label of a list decides the colour, whatever follows it; an unknown label gets the default. */
  lemma {:induction false} ColorOfFirstLabel(name: string, rest: string)
    requires ',' !in name
    ensures GetColorForSemanticLabels(name + "," + rest)
         == if name in SemanticLabelToColorMap then SemanticLabelToColorMap[name] else DefaultColor
    ensures GetColorForSemanticLabels(name)
         == if name in SemanticLabelToColorMap then SemanticLabelToColorMap[name] else DefaultColor
  {
    FirstLabelOf(name, "," + rest);
    assert name + "," + rest == name + ("," + rest);
    FirstLabelOf(name, "");
    assert name + "" == name;
    assert "" !in SemanticLabelToColorMap;
  }

  lemma {:induction false} FirstLabelOf(name: string, tail: string)
    requires ',' !in name
    requires tail == [] || tail[0] == ','
    ensures FirstLabel(name + tail) == name
  {
    if name != [] {
      assert (name + tail)[1..] == name[1..] + tail;
      FirstLabelOf(name[1..], tail);
    } else {
      assert name + tail == tail;
    }
  }

  /** `ovrApp::PlaneVisualizationMode`, without the `Count` sentinel. */
  datatype PlaneVisualizationMode = BoundingBox | Boundary

  const PlaneVisualizationModeCount: nat := 2

  function ModeToInt(m: PlaneVisualizationMode): (i: nat)
    ensures i < PlaneVisualizationModeCount
  {
    match m
    case BoundingBox => 0
    case Boundary => 1
  }

  function ModeFromInt(i: nat): (m: PlaneVisualizationMode)
    requires i < PlaneVisualizationModeCount
    ensures ModeToInt(m) == i
  {
    if i == 0 then BoundingBox else Boundary
  }

  /** `CycleScenePlaneRenderingMode`: `(mode + 1) % Count`. */
  function CycleScenePlaneRenderingMode(m: PlaneVisualizationMode): (next: PlaneVisualizationMode)
    ensures next != m
  {
    ModeFromInt((ModeToInt(m) + 1) % PlaneVisualizationModeCount)
  }

  /** The cycle toggles between the two modes, so two cycles are the identity. */
  lemma CycleToggles(m: PlaneVisualizationMode)
    ensures CycleScenePlaneRenderingMode(m) != m
    ensures CycleScenePlaneRenderingMode(m) == (if m == BoundingBox then Boundary else BoundingBox)
    ensures CycleScenePlaneRenderingMode(CycleScenePlaneRenderingMode(m)) == m
  {
  }

  /** `ovrApp::QueryType`. */
  datatype QueryType = None | QueryAll | QueryAllBounded2DEnabled | QueryAllRoomLayoutEnabled | QueryByUuids

  /** The query type the scheduler leaves behind once it has started `q`. */
  function FollowUp(q: QueryType): (next: QueryType)
    ensures next != None <==> q == QueryAllRoomLayoutEnabled
  {
    if q == QueryAllRoomLayoutEnabled then QueryByUuids else None
  }

  /**
    What the query function returns: `QueryAnchorsByUuids` returns false
    when `UuidSet` is empty; every other query returns true (its
    `xrQuerySpacesFB` result is only logged).
   */
  predicate QueryIssued(q: QueryType, uuidSet: set<string>)
    requires q != None
  {
    q != QueryByUuids || uuidSet != {}
  }

  /** The scheduler's part of the app state. */
  datatype SchedulerState = SchedulerState(nextQueryType: QueryType, isQueryComplete: bool, uuidSet: set<string>)

  /** One pass of the scheduler block of the main loop. */
  function Schedule(s: SchedulerState): (t: SchedulerState)
    ensures t.uuidSet == s.uuidSet
    ensures s.nextQueryType == None || !s.isQueryComplete ==> t == s
    ensures s.nextQueryType != None && s.isQueryComplete ==>
      t.nextQueryType == FollowUp(s.nextQueryType) && (t.isQueryComplete <==> !QueryIssued(s.nextQueryType, s.uuidSet))
  {
    if s.nextQueryType != None && s.isQueryComplete then
      var result := QueryIssued(s.nextQueryType, s.uuidSet);
      s.(nextQueryType := FollowUp(s.nextQueryType), isQueryComplete := !result)
    else s
  }

  /** `XR_TYPE_EVENT_DATA_SPACE_QUERY_COMPLETE_FB`. */
  function QueryCompleted(s: SchedulerState): (t: SchedulerState)
    ensures t.isQueryComplete && t.nextQueryType == s.nextQueryType && t.uuidSet == s.uuidSet
  {
    s.(isQueryComplete := true)
  }

  /** The room-layout query chains to a by-UUID query, which with no UUIDs collected leaves the scheduler complete and idle. */
  lemma RoomLayoutChainsToByUuids(s: SchedulerState)
    requires s.nextQueryType == QueryAllRoomLayoutEnabled && s.isQueryComplete
    ensures Schedule(s).nextQueryType == QueryByUuids && !Schedule(s).isQueryComplete
    ensures var t := Schedule(QueryCompleted(Schedule(s)));
      t.nextQueryType == None && (t.isQueryComplete <==> s.uuidSet == {})
  {
  }

  /** Whatever is pending, two scheduler passes, each after the outstanding query has completed, leave nothing pending. */
  lemma ScheduleDrains(s: SchedulerState)
    ensures Schedule(QueryCompleted(Schedule(QueryCompleted(s)))).nextQueryType == None
  {
  }

  /** The scheduler never starts a query while one is outstanding. */
  lemma NoQueryWhileOutstanding(s: SchedulerState)
    requires !s.isQueryComplete
    ensures Schedule(s) == s
  {
  }

  /** The part of `ovrApp` that the scheduler, the buttons and `ClearScene` touch. */
  class SceneApp {
    var nextQueryType: QueryType
    var isQueryComplete: bool
    var queryAllAnchorsInRoom: bool
    var clearScene: bool
    var uuidSet: set<string>
    var currentPlaneVisualizationMode: PlaneVisualizationMode
    /** The planes and volumes of `AppRenderer.Scene`, by their anchor UUIDs. */
    var planes: seq<string>
    var volumes: seq<string>
    var cpuLevel: int
    var gpuLevel: int

    function State(): SchedulerState
      reads this
    {
      SchedulerState(nextQueryType, isQueryComplete, uuidSet)
    }

    /** The field initialisers followed by `ovrApp::Clear`. */
    constructor ()
      ensures nextQueryType == None && isQueryComplete && !clearScene && queryAllAnchorsInRoom
      ensures uuidSet == {} && planes == [] && volumes == []
      ensures currentPlaneVisualizationMode == Boundary
      ensures cpuLevel == 2 && gpuLevel == 2
    {
      nextQueryType := None;
      isQueryComplete := true;
      queryAllAnchorsInRoom := true;
      clearScene := false;
      uuidSet := {};
      currentPlaneVisualizationMode := Boundary;
      planes := [];
      volumes := [];
      cpuLevel := 2;
      gpuLevel := 2;
    }

    /** `ovrApp::Clear`, restricted to the fields modelled here. */
    method Clear()
      modifies this
      ensures nextQueryType == None && isQueryComplete && !clearScene
      ensures cpuLevel == 2 && gpuLevel == 2
      ensures uuidSet == old(uuidSet) && planes == old(planes) && volumes == old(volumes)
      ensures queryAllAnchorsInRoom == old(queryAllAnchorsInRoom)
      ensures currentPlaneVisualizationMode == old(currentPlaneVisualizationMode)
    {
      cpuLevel := 2;
      gpuLevel := 2;
      nextQueryType := None;
      isQueryComplete := true;
      clearScene := false;
    }

    /** The `SPACE_QUERY_COMPLETE` event handler. */
    method OnSpaceQueryComplete()
      modifies this
      ensures State() == QueryCompleted(old(State()))
      ensures clearScene == old(clearScene) && planes == old(planes) && volumes == old(volumes)
      ensures queryAllAnchorsInRoom == old(queryAllAnchorsInRoom)
      ensures currentPlaneVisualizationMode == old(currentPlaneVisualizationMode)
      ensures cpuLevel == old(cpuLevel) && gpuLevel == old(gpuLevel)
    {
      isQueryComplete := true;
    }

    /** `CycleScenePlaneRenderingMode` (the planes' geometry refresh is left out). */
    method CyclePlaneRenderingMode()
      modifies this
      ensures currentPlaneVisualizationMode == CycleScenePlaneRenderingMode(old(currentPlaneVisualizationMode))
      ensures State() == old(State()) && clearScene == old(clearScene)
      ensures planes == old(planes) && volumes == old(volumes)
      ensures queryAllAnchorsInRoom == old(queryAllAnchorsInRoom)
      ensures cpuLevel == old(cpuLevel) && gpuLevel == old(gpuLevel)
    {
      currentPlaneVisualizationMode := ModeFromInt((ModeToInt(currentPlaneVisualizationMode) + 1) % PlaneVisualizationModeCount);
    }

    /** The `if (app.ClearScene)` block: drop every plane, volume and UUID, and mark the query complete. */
    method ClearSceneIfRequested()
      modifies this
      ensures old(clearScene) ==> planes == [] && volumes == [] && uuidSet == {} && isQueryComplete && !clearScene
      ensures !old(clearScene) ==> planes == old(planes) && volumes == old(volumes) && State() == old(State()) && !clearScene
      ensures nextQueryType == old(nextQueryType)
      ensures queryAllAnchorsInRoom == old(queryAllAnchorsInRoom)
      ensures currentPlaneVisualizationMode == old(currentPlaneVisualizationMode)
      ensures cpuLevel == old(cpuLevel) && gpuLevel == old(gpuLevel)
    {
      if clearScene {
        planes := [];
        volumes := [];
        clearScene := false;
        uuidSet := {};
        isQueryComplete := true;
      }
    }

    /** The scheduler block: start the next query if one is pending and none is outstanding. */
    method StartNextQuery() returns (started: bool)
      modifies this
      ensures started <==> old(nextQueryType) != None && old(isQueryComplete)
      ensures State() == Schedule(old(State()))
      ensures clearScene == old(clearScene) && planes == old(planes) && volumes == old(volumes)
      ensures queryAllAnchorsInRoom == old(queryAllAnchorsInRoom)
      ensures currentPlaneVisualizationMode == old(currentPlaneVisualizationMode)
      ensures cpuLevel == old(cpuLevel) && gpuLevel == old(gpuLevel)
    {
      started := false;
      if nextQueryType != None && isQueryComplete {
        started := true;
        var result := false;
        if nextQueryType == QueryAll {
          result := true;
          nextQueryType := None;
        } else if nextQueryType == QueryAllBounded2DEnabled {
          result := true;
          nextQueryType := None;
        } else if nextQueryType == QueryAllRoomLayoutEnabled {
          result := true;
          nextQueryType := QueryByUuids;
        } else if nextQueryType == QueryByUuids {
          result := uuidSet != {};
          nextQueryType := None;
        }
        isQueryComplete := if result then false else true;
      }
    }

    /**
      The A, B, X and Y handlers, in that order: each requests a scene
      clear and names the next query, so a later button overrides an
      earlier one.
     */
    method HandleButtons(a: bool, b: bool, x: bool, y: bool)
      modifies this
      ensures clearScene <==> old(clearScene) || a || b || x || y
      ensures nextQueryType ==
        if y then QueryAllRoomLayoutEnabled else if x then QueryAll
        else if b then QueryAllBounded2DEnabled else if a then QueryAllRoomLayoutEnabled
        else old(nextQueryType)
      ensures queryAllAnchorsInRoom == if y then false else if a then true else old(queryAllAnchorsInRoom)
      ensures isQueryComplete == old(isQueryComplete) && uuidSet == old(uuidSet)
      ensures planes == old(planes) && volumes == old(volumes)
      ensures currentPlaneVisualizationMode == old(currentPlaneVisualizationMode)
      ensures cpuLevel == old(cpuLevel) && gpuLevel == old(gpuLevel)
    {
      if a {
        clearScene := true;
        nextQueryType := QueryAllRoomLayoutEnabled;
        queryAllAnchorsInRoom := true;
      }
      if b {
        clearScene := true;
        nextQueryType := QueryAllBounded2DEnabled;
      }
      if x {
        clearScene := true;
        nextQueryType := QueryAll;
      }
      if y {
        clearScene := true;
        nextQueryType := QueryAllRoomLayoutEnabled;
        queryAllAnchorsInRoom := false;
      }
    }
  }

  /** A button press followed by the next frame's clear always starts its query there, whatever was outstanding. */
  lemma ButtonPressStartsQuery(next: QueryType)
    requires next != None
    ensures Schedule(SchedulerState(next, true, {})).nextQueryType == FollowUp(next)
    ensures Schedule(SchedulerState(next, true, {})).isQueryComplete <==> next == QueryByUuids
  {
  }
}
