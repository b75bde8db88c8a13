/**
  `XrSceneModel/Src/SceneModelGl.cpp`: the buffer bookkeeping of
  `ovrGeometry` (which GL names it holds, the index list it uploads, and
  whether it is renderable), the triangle fan of a scene plane, the fixed
  index lists of the stage and of a volume, `ovrPlane`'s pose flag and
  `ovrScene`'s VAO flag. GL calls are left out; a name that `glGen*` hands
  out is a parameter.
 */
module SceneModelGl {

  /** A name `glGenBuffers`/`glGenVertexArrays` returns: never 0. */
  type GlName = n: nat | n > 0 witness 1

  /** `unsigned short`: a pushed `int` is reduced modulo 2^16. */
  function ToUShort(x: int): (r: int)
    ensures 0 <= r < 0x1_0000
    ensures 0 <= x < 0x1_0000 ==> r == x
  {
    x % 0x1_0000
  }

  const MAX_VERTEX_ATTRIB_POINTERS: nat := 3
  const VERTEX_ATTRIBUTE_LOCATION_POSITION: int := 0
  const VERTEX_ATTRIBUTE_LOCATION_COLOR: int := 1

  /** The indices `CreateStage` uploads: two triangles over four corners. */
  const StageIndices: seq<int> := [0, 1, 2, 2, 1, 3]

  /** The indices `CreateVolume` uploads: two triangles per face of a box. */
  const VolumeIndices: seq<int> := [
    0, 2, 1, 2, 0, 3,
    4, 6, 5, 6, 4, 7,
    0, 1, 4, 1, 5, 4,
    1, 2, 5, 2, 6, 5,
    2, 3, 6, 3, 7, 6,
    3, 0, 7, 0, 4, 7]

  /** The volume list has 12 triangles over the 8 corners, and uses every corner. */
  lemma VolumeIndicesShape()
    ensures |VolumeIndices| == 36
    ensures forall k :: 0 <= k < |VolumeIndices| ==> 0 <= VolumeIndices[k] < 8
    ensures forall v :: 0 <= v < 8 ==> v in VolumeIndices
  {
    assert VolumeIndices[0] == 0 && VolumeIndices[2] == 1 && VolumeIndices[1] == 2 && VolumeIndices[5] == 3;
    assert VolumeIndices[6] == 4 && VolumeIndices[8] == 5 && VolumeIndices[7] == 6 && VolumeIndices[11] == 7;
  }

  lemma StageIndicesShape()
    ensures |StageIndices| == 6
    ensures forall k :: 0 <= k < |StageIndices| ==> 0 <= StageIndices[k] < 4
  {
  }

  /** The fan `CreatePlane` builds over its first `t` triangles: triangle `i` is `(0, i + 1, i + 2)`. */
  function Fan(t: nat): (r: seq<int>)
    ensures |r| == 3 * t
  {
    if t == 0 then [] else Fan(t - 1) + [ToUShort(0), ToUShort(t), ToUShort(t + 1)]
  }

  /** The fan over `n` vertices: `n - 2` triangles. */
  function TriangleFan(n: nat): (r: seq<int>)
    requires n >= 3
    ensures |r| == 3 * (n - 2)
  {
    Fan(n - 2)
  }

  lemma {:induction false} FanAt(t: nat, i: nat)
    requires i < t
    ensures Fan(t)[3 * i] == ToUShort(0)
    ensures Fan(t)[3 * i + 1] == ToUShort(i + 1)
    ensures Fan(t)[3 * i + 2] == ToUShort(i + 2)
  {
    if i < t - 1 {
      FanAt(t - 1, i);
    }
  }

  /**
    Below 2^16 vertices, triangle `i` of the fan is `(0, i + 1, i + 2)`, every
    index addresses one of the `n` vertices, and every vertex is used.
   */
  lemma TriangleFanShape(n: nat)
    requires 3 <= n <= 0x1_0000
    ensures forall i :: 0 <= i < n - 2 ==>
      TriangleFan(n)[3 * i] == 0 && TriangleFan(n)[3 * i + 1] == i + 1 && TriangleFan(n)[3 * i + 2] == i + 2
    ensures forall k :: 0 <= k < |TriangleFan(n)| ==> 0 <= TriangleFan(n)[k] < n
    ensures forall v :: 0 <= v < n ==> v in TriangleFan(n)
  {
    var r := TriangleFan(n);
    forall i | 0 <= i < n - 2
      ensures r[3 * i] == 0 && r[3 * i + 1] == i + 1 && r[3 * i + 2] == i + 2
    {
      FanAt(n - 2, i);
    }
    forall k | 0 <= k < |r|
      ensures 0 <= r[k] < n
    {
      var i := k / 3;
      FanAt(n - 2, i);
      assert k == 3 * i || k == 3 * i + 1 || k == 3 * i + 2;
    }
    forall v | 0 <= v < n
      ensures v in r
    {
      if v == 0 {
        FanAt(n - 2, 0);
        assert r[0] == 0;
      } else if v < n - 1 {
        FanAt(n - 2, v - 1);
        assert r[3 * (v - 1) + 1] == v;
      } else {
        FanAt(n - 2, n - 3);
        assert r[3 * (n - 3) + 2] == v;
      }
    }
  }

  /** Past 2^16 vertices, the `unsigned short` indices wrap around to vertex 0. */
  lemma TriangleFanWraps()
    ensures TriangleFan(0x1_0002)[3 * 0xFFFF + 1] == 0
  {
    FanAt(0x1_0000, 0xFFFF);
  }

  /** The loop of `CreatePlane` that fills `indices`. */
  method BuildFanIndices(vertexCount: nat) returns (indices: seq<int>)
    requires vertexCount >= 3
    ensures indices == TriangleFan(vertexCount)
  {
    indices := [];
    var numTriangles := vertexCount - 2;
    var i := 0;
    while i < numTriangles
      invariant 0 <= i <= numTriangles
      invariant indices == Fan(i)
    {
      indices := indices + [ToUShort(0)];
      indices := indices + [ToUShort(i + 1)];
      indices := indices + [ToUShort(i + 2)];
      i := i + 1;
    }
  }

  /** `ovrGeometry`: only its bookkeeping; the vertex data and attribute layouts other than `Index` are left out. */
  class Geometry {
    var vertexBuffer: nat
    var indexBuffer: nat
    var vertexArrayObject: nat
    /** `IndexCount_`, and the index list last uploaded to `IndexBuffer_`. */
    var indexCount: int
    var indexData: seq<int>
    var isRenderable: bool
    /** `VertexAttribs_[i].Index`. */
    const vertexAttribIndex: array<int>

    ghost predicate Valid()
      reads this
    {
      vertexAttribIndex.Length == MAX_VERTEX_ATTRIB_POINTERS
    }

    /** A geometry as the scene holds it after `Clear`. */
    constructor ()
      ensures Valid() && fresh(vertexAttribIndex)
      ensures vertexBuffer == 0 && indexBuffer == 0 && vertexArrayObject == 0 && !isRenderable
      ensures forall i :: 0 <= i < MAX_VERTEX_ATTRIB_POINTERS ==> vertexAttribIndex[i] == -1
      ensures indexCount == 0 && indexData == []
    {
      vertexBuffer, indexBuffer, vertexArrayObject := 0, 0, 0;
      indexCount, indexData := 0, [];
      isRenderable := false;
      vertexAttribIndex := new int[MAX_VERTEX_ATTRIB_POINTERS](_ => -1);
    }

    /** `ovrGeometry::Clear`. */
    method Clear()
      requires Valid()
      modifies this, vertexAttribIndex
      ensures Valid()
      ensures vertexBuffer == 0 && indexBuffer == 0 && vertexArrayObject == 0 && !isRenderable
      ensures forall i :: 0 <= i < MAX_VERTEX_ATTRIB_POINTERS ==> vertexAttribIndex[i] == -1
      ensures indexCount == old(indexCount) && indexData == old(indexData)
    {
      vertexBuffer, indexBuffer, vertexArrayObject := 0, 0, 0;
      var i := 0;
      while i < MAX_VERTEX_ATTRIB_POINTERS
        invariant 0 <= i <= MAX_VERTEX_ATTRIB_POINTERS
        invariant forall k :: 0 <= k < i ==> vertexAttribIndex[k] == -1
        invariant vertexBuffer == 0 && indexBuffer == 0 && vertexArrayObject == 0
        invariant indexCount == old(indexCount) && indexData == old(indexData)
      {
        vertexAttribIndex[i] := -1;
        i := i + 1;
      }
      isRenderable := false;
    }

    /** `CreateIndexBuffer`: a buffer is generated only when none is held; `IndexCount_` becomes the list length. */
    method CreateIndexBuffer(indices: seq<int>, genIndexBuffer: GlName)
      modifies this
      ensures indexBuffer == if old(indexBuffer) == 0 then genIndexBuffer else old(indexBuffer)
      ensures indexData == indices && indexCount == |indices|
      ensures vertexBuffer == old(vertexBuffer) && vertexArrayObject == old(vertexArrayObject)
      ensures isRenderable == old(isRenderable)
    {
      if indexBuffer == 0 {
        indexBuffer := genIndexBuffer;
      }
      indexData := indices;
      indexCount := |indices|;
    }

    /** `CreateVAO`: a vertex array is generated only when none is held. */
    method CreateVAO(genVertexArray: GlName)
      modifies this
      ensures vertexArrayObject == if old(vertexArrayObject) == 0 then genVertexArray else old(vertexArrayObject)
      ensures vertexBuffer == old(vertexBuffer) && indexBuffer == old(indexBuffer)
      ensures indexData == old(indexData) && indexCount == old(indexCount) && isRenderable == old(isRenderable)
    {
      if vertexArrayObject == 0 {
        vertexArrayObject := genVertexArray;
      }
    }

    /** `DestroyVAO`: `glDeleteVertexArrays` only; the deleted name stays in `VertexArrayObject_`. */
    method DestroyVAO()
      ensures vertexArrayObject == old(vertexArrayObject)
    {
    }

    /** `CreateStage`: a fresh vertex buffer, the stage indices, renderable. */
    method CreateStage(genVertexBuffer: GlName, genIndexBuffer: GlName)
      requires Valid()
      modifies this, vertexAttribIndex
      ensures Valid()
      ensures vertexBuffer == genVertexBuffer
      ensures indexBuffer == if old(indexBuffer) == 0 then genIndexBuffer else old(indexBuffer)
      ensures indexData == StageIndices && indexCount == 6 && isRenderable
      ensures vertexAttribIndex[0] == VERTEX_ATTRIBUTE_LOCATION_POSITION
      ensures forall i :: 1 <= i < MAX_VERTEX_ATTRIB_POINTERS ==> vertexAttribIndex[i] == old(vertexAttribIndex[i])
      ensures vertexArrayObject == old(vertexArrayObject)
    {
      vertexAttribIndex[0] := VERTEX_ATTRIBUTE_LOCATION_POSITION;
      vertexBuffer := genVertexBuffer;
      CreateIndexBuffer(StageIndices, genIndexBuffer);
      isRenderable := true;
    }

    /**
      `CreatePlane` over `vertexCount` boundary vertices: fewer than three
      leave it not renderable with no buffer touched; otherwise the fan is
      uploaded and the vertex array created.
     */
    method CreatePlane(vertexCount: nat, genVertexBuffer: GlName, genIndexBuffer: GlName, genVertexArray: GlName)
      requires Valid()
      modifies this, vertexAttribIndex
      ensures Valid()
      ensures vertexCount < 3 ==>
        (!isRenderable && vertexBuffer == old(vertexBuffer) && indexBuffer == old(indexBuffer)
         && vertexArrayObject == old(vertexArrayObject) && indexData == old(indexData) && indexCount == old(indexCount)
         && vertexAttribIndex[..] == old(vertexAttribIndex[..]))
      ensures vertexCount >= 3 ==>
        (isRenderable && indexData == TriangleFan(vertexCount) && indexCount == 3 * (vertexCount - 2)
         && vertexBuffer == (if old(vertexBuffer) == 0 then genVertexBuffer else old(vertexBuffer))
         && indexBuffer == (if old(indexBuffer) == 0 then genIndexBuffer else old(indexBuffer))
         && vertexArrayObject == (if old(vertexArrayObject) == 0 then genVertexArray else old(vertexArrayObject))
         && vertexAttribIndex[0] == VERTEX_ATTRIBUTE_LOCATION_POSITION && vertexAttribIndex[1] == VERTEX_ATTRIBUTE_LOCATION_COLOR
         && vertexAttribIndex[2] == old(vertexAttribIndex[2]))
    {
      if vertexCount < 3 {
        isRenderable := false;
        return;
      }
      vertexAttribIndex[0] := VERTEX_ATTRIBUTE_LOCATION_POSITION;
      vertexAttribIndex[1] := VERTEX_ATTRIBUTE_LOCATION_COLOR;
      if vertexBuffer == 0 {
        vertexBuffer := genVertexBuffer;
      }
      var indices := BuildFanIndices(vertexCount);
      CreateIndexBuffer(indices, genIndexBuffer);
      CreateVAO(genVertexArray);
      isRenderable := true;
    }

    /** `CreateVolume`: a fresh vertex buffer, the box indices, the vertex array, renderable. */
    method CreateVolume(genVertexBuffer: GlName, genIndexBuffer: GlName, genVertexArray: GlName)
      requires Valid()
      modifies this, vertexAttribIndex
      ensures Valid()
      ensures vertexBuffer == genVertexBuffer
      ensures indexBuffer == if old(indexBuffer) == 0 then genIndexBuffer else old(indexBuffer)
      ensures vertexArrayObject == if old(vertexArrayObject) == 0 then genVertexArray else old(vertexArrayObject)
      ensures indexData == VolumeIndices && indexCount == 36 && isRenderable
      ensures vertexAttribIndex[0] == VERTEX_ATTRIBUTE_LOCATION_POSITION && vertexAttribIndex[1] == VERTEX_ATTRIBUTE_LOCATION_COLOR
      ensures vertexAttribIndex[2] == old(vertexAttribIndex[2])
    {
      vertexAttribIndex[0] := VERTEX_ATTRIBUTE_LOCATION_POSITION;
      vertexAttribIndex[1] := VERTEX_ATTRIBUTE_LOCATION_COLOR;
      vertexBuffer := genVertexBuffer;
      CreateIndexBuffer(VolumeIndices, genIndexBuffer);
      CreateVAO(genVertexArray);
      isRenderable := true;
    }

    /** `Destroy`: the buffers are deleted and the geometry cleared. */
    method Destroy()
      requires Valid()
      modifies this, vertexAttribIndex
      ensures Valid()
      ensures vertexBuffer == 0 && indexBuffer == 0 && vertexArrayObject == 0 && !isRenderable
      ensures forall i :: 0 <= i < MAX_VERTEX_ATTRIB_POINTERS ==> vertexAttribIndex[i] == -1
    {
      Clear();
    }
  }

  /** `ovrPlane`: renderable once it has a pose and its geometry is renderable. */
  class Plane {
    const geometry: Geometry
    var isPoseSet: bool

    constructor (geometry: Geometry)
      ensures this.geometry == geometry && !isPoseSet
    {
      this.geometry := geometry;
      isPoseSet := false;
    }

    predicate IsRenderable()
      reads this, geometry
    {
      isPoseSet && geometry.isRenderable
    }

    /** `SetPose`: the pose itself is left out. */
    method SetPose()
      modifies this
      ensures isPoseSet
      ensures IsRenderable() <==> geometry.isRenderable
    {
      isPoseSet := true;
    }
  }

  /** `ovrScene`'s `CreatedVAOs` flag. */
  class Scene {
    var createdVAOs: bool

    constructor ()
      ensures !createdVAOs
    {
      createdVAOs := false;
    }

    /** `CreateVAOs`: acts (creating the stage and axes vertex arrays) only when the flag is clear. */
    method CreateVAOs() returns (created: bool)
      modifies this
      ensures created <==> !old(createdVAOs)
      ensures createdVAOs
    {
      created := false;
      if !createdVAOs {
        created := true;
        createdVAOs := true;
      }
    }

    /** `DestroyVAOs`: acts only when the flag is set. */
    method DestroyVAOs() returns (destroyed: bool)
      modifies this
      ensures destroyed <==> old(createdVAOs)
      ensures !createdVAOs
    {
      destroyed := false;
      if createdVAOs {
        destroyed := true;
        createdVAOs := false;
      }
    }
  }
}
