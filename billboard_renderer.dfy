/**
  `BillBoardRenderer.cpp`: a pool of camera-facing quads addressed by 16-bit
  handles. Handles are recycled through a free list; every frame the active
  list is swept, expired billboards are swap-removed onto the free list, and
  the draw call covers six indices per surviving quad.

  Times are the frame's predicted display time in seconds, modelled as
  `real`; geometry, colours, texture coordinates and the GL calls are not part
  of this model.
 */
module BillBoardRendererCpp {
  import SeqOps

  /** `MAX_BILLBOARDS`: the largest `uint16_t`, reserved as the invalid handle. */
  const MAX_BILLBOARDS: int := 65535
  const INVALID_HANDLE: int := MAX_BILLBOARDS
  /** `LIFETIME_INFINITE`, `FLT_MAX`. */
  const LIFETIME_INFINITE: real := 340282346638528859811704685012366325760.0
  /** The six corners, in quad-vertex order, of the two triangles of a quad. */
  const QuadCorners: seq<int> := [0, 1, 3, 0, 3, 2]

  /** `handle_t`: a `uint16_t`. */
  type Handle = h: int | 0 <= h < 0x1_0000

  predicate IsValid(h: Handle)
  {
    h != INVALID_HANDLE
  }

  /** The parts of `ovrBillBoardInfo` the pool logic reads; the default is `Info(INVALID_HANDLE, 0.0, 0.0)`. */
  datatype Info = Info(handle: Handle, startTime: real, lifeTime: real)

  /** The culling test of `FrameInternal`: the billboard has been alive longer than its lifetime. */
  predicate Expired(info: Info, now: real)
  {
    now - info.startTime > info.lifeTime
  }

  /** Whether the sweep keeps handle `h` in the active list. */
  predicate Survives(infos: seq<Info>, now: real, h: Handle)
  {
    h < |infos| && !Expired(infos[h], now)
  }

  function SurvivesIn(infos: seq<Info>, now: real): Handle -> bool
  {
    (h: Handle) => Survives(infos, now, h)
  }

  /** `static_cast<TriangleIndex>`: truncation to 16 bits. */
  function ToTriangleIndex(x: int): (r: int)
    requires x >= 0
    ensures 0 <= r < 0x1_0000
    ensures x < 0x1_0000 ==> r == x
  {
    x % 0x1_0000
  }

  /** The six indices `Init` writes for quad `q`. */
  function QuadIndices(q: nat): (r: seq<int>)
    ensures |r| == 6
  {
    [ToTriangleIndex(q * 4 + 0), ToTriangleIndex(q * 4 + 1), ToTriangleIndex(q * 4 + 3),
     ToTriangleIndex(q * 4 + 0), ToTriangleIndex(q * 4 + 3), ToTriangleIndex(q * 4 + 2)]
  }

  /** The index buffer for `n` quads: quad 0's six indices first. */
  function IndexBuffer(n: nat): (r: seq<int>)
    ensures |r| == 6 * n
  {
    if n == 0 then [] else IndexBuffer(n - 1) + QuadIndices(n - 1)
  }

  /** The handles `0 .. n-1`, in order. */
  function Handles(n: nat): (r: seq<Handle>)
    requires n <= 0x1_0000
    ensures |r| == n
  {
    if n == 0 then [] else Handles(n - 1) + [(n - 1) as Handle]
  }

  /** Entry `6q + k` of the buffer is corner `k` of quad `q`, truncated to 16 bits. */
  lemma {:induction false} IndexBufferAt(n: nat, q: nat, k: nat)
    requires q < n && k < 6
    ensures IndexBuffer(n)[6 * q + k] == ToTriangleIndex(4 * q + QuadCorners[k])
  {
    if q < n - 1 {
      IndexBufferAt(n - 1, q, k);
    }
  }

  /**
    While the vertices fit 16-bit indices (at most 16384 quads), every index
    addresses one of the `4 n` vertices.
   */
  lemma {:induction false} IndicesAddressVertices(n: nat)
    requires n <= 16384
    ensures forall j :: 0 <= j < |IndexBuffer(n)| ==> 0 <= IndexBuffer(n)[j] < 4 * n
  {
    if n > 0 {
      IndicesAddressVertices(n - 1);
      assert IndexBuffer(n) == IndexBuffer(n - 1) + QuadIndices(n - 1);
    }
  }

  /** Without truncation the two triangles of quad `q` use exactly its four vertices. */
  lemma QuadCoversItsVertices(q: nat)
    requires 4 * q + 3 < 0x1_0000
    ensures (set k | 0 <= k < 6 :: QuadIndices(q)[k]) == {4 * q, 4 * q + 1, 4 * q + 2, 4 * q + 3}
  {
    var r := QuadIndices(q);
    assert r[0] == 4 * q && r[1] == 4 * q + 1 && r[5] == 4 * q + 2 && r[2] == 4 * q + 3;
  }

  /** With more than 16384 quads the cast wraps: quad 16384 reuses vertex 0. */
  lemma IndexWrapsPast16384Quads()
    ensures IndexBuffer(16385)[6 * 16384] == 0
  {
    IndexBufferAt(16385, 16384, 0);
  }

  /** Each handle below `n` occurs once in `Handles(n)`, and no other does. */
  lemma {:induction false} HandlesCount(n: nat, x: Handle)
    requires n <= 0x1_0000
    ensures multiset(Handles(n))[x] == if x < n then 1 else 0
  {
    if n > 0 {
      HandlesCount(n - 1, x);
    }
  }

  /**
    When the active and free lists together hold each allocated handle once,
    no handle is both active and free, and none occurs twice in either.
   */
  lemma ListsAreDisjoint(active: seq<Handle>, free: seq<Handle>, n: nat, x: Handle)
    requires Partitions(active, free, n)
    ensures multiset(active)[x] + multiset(free)[x] == if x < n then 1 else 0
  {
    HandlesCount(n, x);
    assert (multiset(active) + multiset(free))[x] == multiset(Handles(n))[x];
  }

  /** `RemoveBillBoard`'s marking is culled by the next frame exactly when the display time exceeds -2 s. */
  lemma RemovedIsCulled(info: Info, now: real)
    ensures Expired(info.(startTime := -1.0, lifeTime := -1.0), now) <==> now > -2.0
  {
  }

  /**
    The pool invariant: every allocated handle is either active or free,
    exactly once; the pool is no larger than its cap; and the draw call
    stays within the index buffer.
   */
  ghost predicate PoolInv(maxBillBoards: int, infos: seq<Info>, active: seq<Handle>, free: seq<Handle>,
                          indices: seq<int>, indexCount: int)
  {
    && 0 <= maxBillBoards
    && |infos| <= maxBillBoards && |infos| <= MAX_BILLBOARDS
    && (forall i :: 0 <= i < |active| ==> active[i] < |infos|)
    && (forall i :: 0 <= i < |free| ==> free[i] < |infos|)
    && Partitions(active, free, |infos|)
    && indices == IndexBuffer(maxBillBoards)
    && 0 <= indexCount <= |indices|
  }

  class BillBoardRenderer {
    var maxBillBoards: int
    /** `BillBoardInfos`, indexed by handle. */
    var infos: seq<Info>
    /** `ActiveBillBoards`: the handles drawn, in sweep order. */
    var active: seq<Handle>
    /** `FreeBillBoards`: handles ready for reuse; the last one is reused first. */
    var free: seq<Handle>
    /** The index buffer of `Surf.geo`. */
    var indices: seq<int>
    /** `Surf.geo.indexCount`: how many indices the draw call uses. */
    var indexCount: int

    /** The pool invariant on the current lists. */
    ghost predicate Valid()
      reads this
    {
      PoolInv(maxBillBoards, infos, active, free, indices, indexCount)
    }

    constructor ()
      ensures Valid()
      ensures maxBillBoards == 0 && infos == [] && active == [] && free == [] && indexCount == 0
    {
      maxBillBoards := 0;
      infos, active, free := [], [], [];
      indices, indexCount := [], 0;
    }

    /** `Shutdown`: the geometry is released and the three lists are emptied. */
    method Shutdown()
      modifies this
      ensures Valid()
      ensures maxBillBoards == 0 && infos == [] && active == [] && free == []
      ensures indices == [] && indexCount == 0
    {
      maxBillBoards := 0;
      free := [];
      active := [];
      infos := [];
      indices, indexCount := [], 0;
    }

    /** `Init`: an empty pool of `maxBillBoards` and its fixed index buffer, nothing drawn yet. */
    method Init(maxBillBoards: int)
      requires maxBillBoards >= 0
      modifies this
      ensures Valid()
      ensures this.maxBillBoards == maxBillBoards
      ensures infos == [] && active == [] && free == []
      ensures indices == IndexBuffer(maxBillBoards) && indexCount == 0
    {
      Shutdown();
      this.maxBillBoards := maxBillBoards;
      indices := BuildIndexBuffer(maxBillBoards);
      indexCount := 0;
    }

    /** The loop of `Init` that fills the index buffer, quad by quad. */
    static method BuildIndexBuffer(n: nat) returns (indices: seq<int>)
      ensures indices == IndexBuffer(n)
    {
      var buf := new int[6 * n];
      var i := 0;
      while i < n
        invariant 0 <= i <= n
        invariant buf[..6 * i] == IndexBuffer(i)
      {
        WriteQuad(buf, i);
        assert buf[..6 * (i + 1)] == buf[..6 * i] + buf[6 * i..6 * (i + 1)];
        i := i + 1;
      }
      assert buf[..] == buf[..6 * n];
      indices := buf[..];
    }

    /** One iteration of that loop: the six indices of quad `i`. */
    static method WriteQuad(buf: array<int>, i: nat)
      requires 6 * i + 6 <= buf.Length
      modifies buf
      ensures buf[..6 * i] == old(buf[..6 * i])
      ensures buf[6 * i..6 * (i + 1)] == QuadIndices(i)
    {
      buf[i * 6 + 0] := ToTriangleIndex(i * 4 + 0);
      buf[i * 6 + 1] := ToTriangleIndex(i * 4 + 1);
      buf[i * 6 + 2] := ToTriangleIndex(i * 4 + 3);
      buf[i * 6 + 3] := ToTriangleIndex(i * 4 + 0);
      buf[i * 6 + 4] := ToTriangleIndex(i * 4 + 3);
      buf[i * 6 + 5] := ToTriangleIndex(i * 4 + 2);
    }

    /**
      The handle-allocation step both `AddBillBoard` overloads share,
      followed by `UpdateBillBoardInternal`: reuse the most recently freed
      handle, else allocate the next one while under both caps; a new
      handle is activated and its info restarted.
     */
    method Allocate(now: real, lifeTime: real) returns (handle: Handle)
      requires Valid()
      modifies this
      ensures Valid()
      ensures maxBillBoards == old(maxBillBoards) && indices == old(indices) && indexCount == old(indexCount)
      ensures handle == NextHandle(maxBillBoards, old(infos), old(free))
      ensures Allocated(maxBillBoards, old(infos), old(active), old(free), Info(handle, now, lifeTime), infos, active, free)
    {
      var h, inf, act, fr := AllocateOn(maxBillBoards, indices, indexCount, infos, active, free, now, lifeTime);
      handle := h;
      infos, active, free := inf, act, fr;
      assert infos == inf && active == act && free == fr;
    }

    /** `Allocate` on the lists themselves. */
    static method AllocateOn(maxBillBoards: int, indices: seq<int>, indexCount: int,
                             infos0: seq<Info>, active0: seq<Handle>, free0: seq<Handle>, now: real, lifeTime: real)
      returns (handle: Handle, infos: seq<Info>, active: seq<Handle>, free: seq<Handle>)
      requires PoolInv(maxBillBoards, infos0, active0, free0, indices, indexCount)
      ensures PoolInv(maxBillBoards, infos, active, free, indices, indexCount)
      ensures handle == NextHandle(maxBillBoards, infos0, free0)
      ensures Allocated(maxBillBoards, infos0, active0, free0, Info(handle, now, lifeTime), infos, active, free)
    {
      infos, active, free := infos0, active0, free0;
      if |free| > 0 {
        handle := free[|free| - 1];
        ReuseKeepsPool(maxBillBoards, indices, indexCount, infos, active, free, Info(handle, now, lifeTime));
        free := free[..|free| - 1];
      } else {
        handle := |infos| as Handle;
        if handle >= maxBillBoards || handle >= MAX_BILLBOARDS {
          handle := INVALID_HANDLE;
          return;
        }
        GrowKeepsPool(maxBillBoards, indices, indexCount, infos, active, free, Info(handle, now, lifeTime));
        assert (infos + [Info(INVALID_HANDLE, 0.0, 0.0)])[handle := Info(handle, now, lifeTime)] == infos + [Info(handle, now, lifeTime)];
        infos := infos + [Info(INVALID_HANDLE, 0.0, 0.0)];
      }
      active := active + [handle];
      // UpdateBillBoardInternal
      infos := infos[handle := Info(handle, now, lifeTime)];
    }

    /** `UpdateBillBoardInternal`: the entry records its handle, a start time of now and its lifetime. */
    method UpdateInternal(now: real, handle: Handle, lifeTime: real)
      requires handle < |infos|
      modifies this
      ensures IsValid(handle) ==> infos == old(infos)[handle := Info(handle, now, lifeTime)]
      ensures !IsValid(handle) ==> infos == old(infos)
      ensures maxBillBoards == old(maxBillBoards) && active == old(active) && free == old(free)
      ensures indices == old(indices) && indexCount == old(indexCount)
    {
      if !IsValid(handle) {
        return;
      }
      infos := infos[handle := Info(handle, now, lifeTime)];
    }

    /**
      The atlas overload of `AddBillBoard`: the billboard is added whenever a
      handle is available, but the handle is returned only for an infinite
      lifetime.
     */
    method AddBillBoard(now: real, lifeTime: real) returns (result: Handle)
      requires Valid()
      modifies this
      ensures Valid()
      ensures maxBillBoards == old(maxBillBoards) && indices == old(indices) && indexCount == old(indexCount)
      ensures var handle := NextHandle(maxBillBoards, old(infos), old(free));
              && Allocated(maxBillBoards, old(infos), old(active), old(free), Info(handle, now, lifeTime), infos, active, free)
              && result == if lifeTime == LIFETIME_INFINITE then handle else INVALID_HANDLE
    {
      var handle := Allocate(now, lifeTime);
      result := if lifeTime == LIFETIME_INFINITE then handle else INVALID_HANDLE;
    }

    /** The overload without an atlas: always an infinite lifetime, and the handle is returned. */
    method AddBillBoardInfinite(now: real) returns (handle: Handle)
      requires Valid()
      modifies this
      ensures Valid()
      ensures maxBillBoards == old(maxBillBoards) && indices == old(indices) && indexCount == old(indexCount)
      ensures handle == NextHandle(maxBillBoards, old(infos), old(free))
      ensures Allocated(maxBillBoards, old(infos), old(active), old(free), Info(handle, now, LIFETIME_INFINITE), infos, active, free)
    {
      handle := Allocate(now, LIFETIME_INFINITE);
    }

    /** `UpdateBillBoard` (both overloads): the billboard restarts now with an infinite lifetime. */
    method UpdateBillBoard(now: real, handle: Handle)
      requires Valid()
      requires handle < |infos| && IsValid(infos[handle].handle)
      modifies this
      ensures Valid()
      ensures infos == old(infos)[handle := Info(handle, now, LIFETIME_INFINITE)]
      ensures maxBillBoards == old(maxBillBoards) && active == old(active) && free == old(free)
      ensures indices == old(indices) && indexCount == old(indexCount)
    {
      UpdateInternal(now, handle, LIFETIME_INFINITE);
    }

    /** `RemoveBillBoard`: an invalid or unknown handle is ignored; otherwise the entry is marked for culling. */
    method RemoveBillBoard(handle: Handle)
      requires Valid()
      modifies this
      ensures Valid()
      ensures !IsValid(handle) || handle >= |old(infos)| ==> infos == old(infos)
      ensures IsValid(handle) && handle < |old(infos)| ==>
                infos == old(infos)[handle := old(infos)[handle].(startTime := -1.0, lifeTime := -1.0)]
      ensures maxBillBoards == old(maxBillBoards) && active == old(active) && free == old(free)
      ensures indices == old(indices) && indexCount == old(indexCount)
    {
      if !IsValid(handle) || handle >= |infos| {
        return;
      }
      infos := infos[handle := infos[handle].(startTime := -1.0, lifeTime := -1.0)];
    }

    /**
      `FrameInternal`'s sweep: the survivors stay active, the expired
      entries are appended to the free list with their info handle
      invalidated, and the draw call covers six indices per survivor.
     */
    method Frame(now: real)
      requires Valid()
      modifies this
      ensures Valid()
      ensures maxBillBoards == old(maxBillBoards) && indices == old(indices)
      ensures Swept(old(active), old(free), old(infos), now, active, free, infos)
      ensures indexCount == 6 * |active|
    {
      var act, fr, inf, quadIndex := Sweep(maxBillBoards, indices, indexCount, active, free, infos, now);
      active, free, infos := act, fr, inf;
      indexCount := quadIndex * 6;
    }

    /** The loop of `FrameInternal` over the three lists, with `quadIndex` counting the quads drawn. */
    static method Sweep(maxBillBoards: int, indices: seq<int>, indexCount: int,
                        active0: seq<Handle>, free0: seq<Handle>, infos0: seq<Info>, now: real)
      returns (act: seq<Handle>, fr: seq<Handle>, inf: seq<Info>, quadIndex: int)
      requires PoolInv(maxBillBoards, infos0, active0, free0, indices, indexCount)
      ensures Swept(active0, free0, infos0, now, act, fr, inf)
      ensures PoolInv(maxBillBoards, inf, act, fr, indices, quadIndex * 6)
      ensures quadIndex == |act|
    {
      act, fr, inf := active0, free0, infos0;
      var i := 0;
      quadIndex := 0;
      while i < |act|
        invariant quadIndex == i
        invariant SweepInv(active0, free0, infos0, now, act, fr, inf, i)
        decreases |act| - i
      {
        var h := act[i];
        if Expired(inf[h], now) {
          SweepCull(active0, free0, infos0, now, act, fr, inf, i);
          inf := inf[h := inf[h].(handle := INVALID_HANDLE)];
          fr := fr + [h];
          act := SeqOps.SwapRemove(act, i);
        } else {
          quadIndex := quadIndex + 1;
          i := i + 1;
        }
      }
      SweepDone(active0, free0, infos0, now, act, fr, inf);
    }
  }

  /**
    What one sweep of `FrameInternal` does to the lists `active0`, `free0`,
    `infos0` at display time `now`: every entry left active survives; the
    free list is the old one followed by expired entries; together the two
    hold exactly the old active entries (the swap-removes reorder them); and
    the freed entries, and only they, have their handle invalidated.
   */
  ghost predicate Swept(active0: seq<Handle>, free0: seq<Handle>, infos0: seq<Info>, now: real,
                        active: seq<Handle>, free: seq<Handle>, infos: seq<Info>)
  {
    && |infos| == |infos0|
    && (forall i :: 0 <= i < |active| ==> Survives(infos0, now, active[i]))
    && |free0| <= |free| && free[..|free0|] == free0
    && (forall i :: |free0| <= i < |free| ==> free[i] < |infos0| && Expired(infos0[free[i]], now))
    && multiset(active) + multiset(free[|free0|..]) == multiset(active0)
    && (forall h :: 0 <= h < |infos| ==>
          infos[h] == if h in free[|free0|..] then infos0[h].(handle := INVALID_HANDLE) else infos0[h])
  }

  /**
    After a sweep the active entries are, up to order, exactly the old
    active entries that survive, and the newly freed ones exactly the rest.
   */
  lemma SweptKeepsExactlySurvivors(active0: seq<Handle>, free0: seq<Handle>, infos0: seq<Info>, now: real,
                                   active: seq<Handle>, free: seq<Handle>, infos: seq<Info>)
    requires Swept(active0, free0, infos0, now, active, free, infos)
    ensures multiset(active) == multiset(SeqOps.Filter(active0, SurvivesIn(infos0, now)))
    ensures multiset(free[|free0|..]) == multiset(active0) - multiset(active)
  {
    var freed := free[|free0|..];
    assert forall j :: 0 <= j < |active| ==> SurvivesIn(infos0, now)(active[j]);
    assert forall j :: 0 <= j < |freed| ==> !SurvivesIn(infos0, now)(freed[j]);
    SeqOps.SplitIsFilter(active0, active, freed, SurvivesIn(infos0, now));
  }

  /**
    The invariant of the sweep in `FrameInternal` over a snapshot
    `active0`, `free0`, `infos0` of the lists: the first `i` entries of the
    shrinking active list `act` survive; what has been appended to the free
    list expired; together they hold exactly the snapshot's active handles;
    and only the freed entries have had their handle invalidated.
   */
  ghost predicate SweepInv(active0: seq<Handle>, free0: seq<Handle>, infos0: seq<Info>, now: real,
                           act: seq<Handle>, fr: seq<Handle>, inf: seq<Info>, i: int)
  {
    && 0 <= i <= |act|
    && |inf| == |infos0|
    && (forall j :: 0 <= j < |act| ==> act[j] < |inf|)
    && (forall j :: 0 <= j < |fr| ==> fr[j] < |inf|)
    && (forall j :: 0 <= j < i ==> Survives(infos0, now, act[j]))
    && |free0| <= |fr| && fr[..|free0|] == free0
    && (forall j :: |free0| <= j < |fr| ==> Expired(infos0[fr[j]], now))
    && multiset(act) + multiset(fr[|free0|..]) == multiset(active0)
    && (forall h :: 0 <= h < |inf| ==>
          inf[h] == if h in fr[|free0|..] then infos0[h].(handle := INVALID_HANDLE) else infos0[h])
  }

  /** Culling entry `i`: it moves onto the free list, its handle is invalidated, and the invariant holds at the same `i`. */
  lemma SweepCull(active0: seq<Handle>, free0: seq<Handle>, infos0: seq<Info>, now: real,
                  act: seq<Handle>, fr: seq<Handle>, inf: seq<Info>, i: int)
    requires SweepInv(active0, free0, infos0, now, act, fr, inf, i) && i < |act|
    requires Expired(inf[act[i]], now)
    ensures var h := act[i];
            SweepInv(active0, free0, infos0, now, SeqOps.SwapRemove(act, i), fr + [h],
                     inf[h := inf[h].(handle := INVALID_HANDLE)], i)
  {
    var h := act[i];
    var n0 := |free0|;
    var fr2 := fr + [h];
    var act2 := SeqOps.SwapRemove(act, i);
    var inf2 := inf[h := inf[h].(handle := INVALID_HANDLE)];
    SeqOps.SwapRemoveMultiset(act, i);
    assert fr2[n0..] == fr[n0..] + [h];
    assert fr2[..n0] == fr[..n0];
    assert Expired(infos0[h], now);
    forall k | 0 <= k < |inf2|
      ensures inf2[k] == if k in fr2[n0..] then infos0[k].(handle := INVALID_HANDLE) else infos0[k]
    {
      assert k in fr2[n0..] <==> k in fr[n0..] || k == h;
    }
  }

  /** The finished sweep: the survivors are the filter of the snapshot, and the partition of handles is kept. */
  lemma SweepDone(active0: seq<Handle>, free0: seq<Handle>, infos0: seq<Info>, now: real,
                  act: seq<Handle>, fr: seq<Handle>, inf: seq<Info>)
    requires SweepInv(active0, free0, infos0, now, act, fr, inf, |act|)
    requires Partitions(active0, free0, |infos0|)
    ensures Partitions(act, fr, |inf|) && |act| <= |inf|
    ensures Swept(active0, free0, infos0, now, act, fr, inf)
  {
    assert fr == free0 + fr[|free0|..];
    PartitionSize(act, fr, |inf|);
  }

  /**
    The handle `AddBillBoard` obtains: the most recently freed one first;
    otherwise the next unallocated one while under both caps; otherwise the
    invalid handle.
   */
  function NextHandle(maxBillBoards: int, infos: seq<Info>, free: seq<Handle>): Handle
  {
    if free != [] then free[|free| - 1]
    else if |infos| < maxBillBoards && |infos| < MAX_BILLBOARDS then |infos| as Handle
    else INVALID_HANDLE
  }

  /**
    The effect of `AddBillBoard` on the lists `infos0`, `active0`, `free0`,
    with `info` the entry `UpdateBillBoardInternal` writes: a reused handle
    leaves the free list and its entry is overwritten; a new handle gets a
    new entry; either is appended to the active list. When no handle is
    available nothing changes.
   */
  ghost predicate Allocated(maxBillBoards: int, infos0: seq<Info>, active0: seq<Handle>, free0: seq<Handle>,
                            info: Info, infos: seq<Info>, active: seq<Handle>, free: seq<Handle>)
  {
    var handle := NextHandle(maxBillBoards, infos0, free0);
    if free0 != [] then
      && free == free0[..|free0| - 1]
      && active == active0 + [handle]
      && handle < |infos0| && infos == infos0[handle := info]
    else if |infos0| < maxBillBoards && |infos0| < MAX_BILLBOARDS then
      && free == free0
      && active == active0 + [handle]
      && infos == infos0 + [info]
    else
      && free == free0 && active == active0 && infos == infos0
  }

  /** On a valid pool, a handle is refused exactly when every slot of the pool is active and a cap is reached. */
  lemma RefusedOnlyWhenFull(maxBillBoards: int, indices: seq<int>, indexCount: int,
                            infos: seq<Info>, active: seq<Handle>, free: seq<Handle>)
    requires PoolInv(maxBillBoards, infos, active, free, indices, indexCount)
    ensures !IsValid(NextHandle(maxBillBoards, infos, free)) <==>
              |active| == |infos| && (|infos| >= maxBillBoards || |infos| >= MAX_BILLBOARDS)
  {
    PartitionSize(active, free, |infos|);
  }

  /** Reusing the last free handle keeps the pool invariant. */
  lemma ReuseKeepsPool(maxBillBoards: int, indices: seq<int>, indexCount: int,
                       infos: seq<Info>, active: seq<Handle>, free: seq<Handle>, info: Info)
    requires PoolInv(maxBillBoards, infos, active, free, indices, indexCount) && free != []
    ensures var handle := free[|free| - 1];
            PoolInv(maxBillBoards, infos[handle := info], active + [handle], free[..|free| - 1], indices, indexCount)
  {
    PartitionReuse(active, free, |infos|);
  }

  /** Allocating the next handle while under both caps keeps the pool invariant. */
  lemma GrowKeepsPool(maxBillBoards: int, indices: seq<int>, indexCount: int,
                      infos: seq<Info>, active: seq<Handle>, free: seq<Handle>, info: Info)
    requires PoolInv(maxBillBoards, infos, active, free, indices, indexCount)
    requires |infos| < maxBillBoards && |infos| < MAX_BILLBOARDS
    ensures var handle := |infos| as Handle;
            PoolInv(maxBillBoards, infos + [info], active + [handle], free, indices, indexCount)
  {
    PartitionGrow(active, free, |infos|);
  }

  /** Every handle below `n` is in exactly one of the two lists, and no other handle is in either. */
  ghost predicate Partitions(active: seq<Handle>, free: seq<Handle>, n: nat)
  {
    n <= 0x1_0000 && multiset(active) + multiset(free) == multiset(Handles(n))
  }

  /** The lists of a partition hold `n` handles between them. */
  lemma PartitionSize(active: seq<Handle>, free: seq<Handle>, n: nat)
    requires Partitions(active, free, n)
    ensures |active| + |free| == n
  {
    assert |multiset(active) + multiset(free)| == |multiset(Handles(n))|;
  }

  /** Moving the last free handle to the end of the active list keeps the partition. */
  lemma PartitionReuse(active: seq<Handle>, free: seq<Handle>, n: nat)
    requires Partitions(active, free, n) && free != []
    ensures Partitions(active + [free[|free| - 1]], free[..|free| - 1], n)
  {
    assert free == free[..|free| - 1] + [free[|free| - 1]];
  }

  /** Activating the next fresh handle `n` extends the partition to `n + 1` handles. */
  lemma PartitionGrow(active: seq<Handle>, free: seq<Handle>, n: nat)
    requires Partitions(active, free, n) && n < 0x1_0000
    ensures Partitions(active + [n as Handle], free, n + 1)
  {
  }
}
