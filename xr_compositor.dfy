/**
  `XrCompositor_NativeActivity/Src/XrCompositor_NativeActivity.c`: the
  compositor-layer sample. Modelled here are its KTX 1.1 texture loader (the
  header check and the walk over the mip levels), its EGL-error and
  framebuffer-status name tables, and the display refresh-rate cycling that
  a thumbstick click drives. The application state that the Android
  commands and the session events update is modelled in
  `NativeAppLifecycle`.
 */
module XrCompositorNativeActivity {
  import opened Wrappers
  import Bytes
  import CodeTables

  type Byte = Bytes.Byte

  // ---------------------------------------------------------------------
  // Name tables

  /** The EGL error codes of the EGL 1.4 headers and their names, by code. */
  const EGL_ERROR_NAMES: CodeTables.Table := [
    (0x3000, "EGL_SUCCESS"),
    (0x3001, "EGL_NOT_INITIALIZED"),
    (0x3002, "EGL_BAD_ACCESS"),
    (0x3003, "EGL_BAD_ALLOC"),
    (0x3004, "EGL_BAD_ATTRIBUTE"),
    (0x3005, "EGL_BAD_CONFIG"),
    (0x3006, "EGL_BAD_CONTEXT"),
    (0x3007, "EGL_BAD_CURRENT_SURFACE"),
    (0x3008, "EGL_BAD_DISPLAY"),
    (0x3009, "EGL_BAD_MATCH"),
    (0x300A, "EGL_BAD_NATIVE_PIXMAP"),
    (0x300B, "EGL_BAD_NATIVE_WINDOW"),
    (0x300C, "EGL_BAD_PARAMETER"),
    (0x300D, "EGL_BAD_SURFACE"),
    (0x300E, "EGL_CONTEXT_LOST")
  ]

  /** The incomplete-framebuffer statuses of the OpenGL ES 3 headers and their names, by code. */
  const GL_FRAMEBUFFER_STATUS_NAMES: CodeTables.Table := [
    (0x8219, "GL_FRAMEBUFFER_UNDEFINED"),
    (0x8CD6, "GL_FRAMEBUFFER_INCOMPLETE_ATTACHMENT"),
    (0x8CD7, "GL_FRAMEBUFFER_INCOMPLETE_MISSING_ATTACHMENT"),
    (0x8CDD, "GL_FRAMEBUFFER_UNSUPPORTED"),
    (0x8D56, "GL_FRAMEBUFFER_INCOMPLETE_MULTISAMPLE")
  ]

  /** `EglErrorString`: the table's name for `error`, or "unknown". */
  function EglErrorString(error: int): (name: string)
    ensures name == "unknown" || exists i :: 0 <= i < |EGL_ERROR_NAMES| && EGL_ERROR_NAMES[i] == (error, name)
  {
    CodeTables.NameOfFromTable(EGL_ERROR_NAMES, error, "unknown");
    CodeTables.NameOf(EGL_ERROR_NAMES, error, "unknown")
  }

  /** `GlFrameBufferStatusString`: the table's name for `status`, or "unknown". */
  function GlFrameBufferStatusString(status: int): (name: string)
    ensures name == "unknown" || exists i :: 0 <= i < |GL_FRAMEBUFFER_STATUS_NAMES| && GL_FRAMEBUFFER_STATUS_NAMES[i] == (status, name)
  {
    CodeTables.NameOfFromTable(GL_FRAMEBUFFER_STATUS_NAMES, status, "unknown");
    CodeTables.NameOf(GL_FRAMEBUFFER_STATUS_NAMES, status, "unknown")
  }

  /** Each EGL error code of the table gets its own name; every other value gets "unknown". */
  lemma EglErrorNames(error: int)
    ensures forall i :: 0 <= i < |EGL_ERROR_NAMES| ==> EglErrorString(EGL_ERROR_NAMES[i].0) == EGL_ERROR_NAMES[i].1
    ensures !(0x3000 <= error <= 0x300E) ==> EglErrorString(error) == "unknown"
  {
    assert CodeTables.Increasing(EGL_ERROR_NAMES);
    CodeTables.NameOfIncreasing(EGL_ERROR_NAMES, "unknown");
    assert EGL_ERROR_NAMES[0].0 == 0x3000 && EGL_ERROR_NAMES[|EGL_ERROR_NAMES| - 1].0 == 0x300E;
    if !(0x3000 <= error <= 0x300E) {
      CodeTables.NameOfOutside(EGL_ERROR_NAMES, error, "unknown");
    }
  }

  /** Each framebuffer status of the table gets its own name; every other value gets "unknown". */
  lemma GlFrameBufferStatusNames(status: int)
    ensures forall i :: 0 <= i < |GL_FRAMEBUFFER_STATUS_NAMES| ==>
      GlFrameBufferStatusString(GL_FRAMEBUFFER_STATUS_NAMES[i].0) == GL_FRAMEBUFFER_STATUS_NAMES[i].1
    ensures status !in {0x8219, 0x8CD6, 0x8CD7, 0x8CDD, 0x8D56} ==> GlFrameBufferStatusString(status) == "unknown"
  {
    assert CodeTables.Increasing(GL_FRAMEBUFFER_STATUS_NAMES);
    CodeTables.NameOfIncreasing(GL_FRAMEBUFFER_STATUS_NAMES, "unknown");
  }

  // ---------------------------------------------------------------------
  // KTX 1.1 header

  /** `sizeof(GlHeaderKTX_t)`: twelve identifier bytes and thirteen packed `unsigned int`s. */
  const KTX_HEADER_SIZE: nat := 64

  /** The KTX 1.1 file identifier: «KTX 11» framed by 0xAB/0xBB and line-ending bytes. */
  const KTX_IDENTIFIER: seq<Byte> := [0xAB, 0x4B, 0x54, 0x58, 0x20, 0x31, 0x31, 0xBB, 0x0D, 0x0A, 0x1A, 0x0A]

  const KTX_ENDIANNESS: int := 0x04030201
  const GL_UNSIGNED_BYTE: int := 0x1401

  /** Sized internal formats of OpenGL ES 3. */
  const GL_R8: int := 0x8229
  const GL_RG8: int := 0x822B
  const GL_RGB8: int := 0x8051
  const GL_RGBA8: int := 0x8058

  /** The header fields after the identifier, in file order. */
  const ENDIANNESS: nat := 0
  const GL_TYPE: nat := 1
  const GL_INTERNAL_FORMAT: nat := 4
  const PIXEL_WIDTH: nat := 6
  const PIXEL_HEIGHT: nat := 7
  const PIXEL_DEPTH: nat := 8
  const NUMBER_OF_ARRAY_ELEMENTS: nat := 9
  const NUMBER_OF_FACES: nat := 10
  const NUMBER_OF_MIPMAP_LEVELS: nat := 11
  const BYTES_OF_KEY_VALUE_DATA: nat := 12

  /** Header field `k` (0 = endianness ... 12 = bytesOfKeyValueData). */
  function Field(buf: seq<Byte>, k: nat): (v: int)
    requires |buf| >= KTX_HEADER_SIZE && k < 13
    ensures 0 <= v < Bytes.UINT32_LIMIT
  {
    Bytes.U32LE(buf, 12 + 4 * k)
  }

  datatype Target = Texture2D | Texture3D | TextureCubeMap | TextureCubeMapArray | Texture2DArray

  /** The texture target implied by the image's shape; depth wins over faces, faces over layers. */
  function TargetFor(depth: int, faces: int, arrays: int): (t: Target)
    ensures t == Texture3D <==> depth > 1
    ensures (t == TextureCubeMap || t == TextureCubeMapArray) <==> depth <= 1 && faces > 1
    ensures (t == TextureCubeMapArray || t == Texture2DArray) <==> depth <= 1 && arrays > 1
  {
    if depth > 1 then Texture3D
    else if faces > 1 then (if arrays > 1 then TextureCubeMapArray else TextureCubeMap)
    else if arrays > 1 then Texture2DArray
    else Texture2D
  }

  /** `ktxImageInfo_t`; the caller's buffer is `data`. */
  datatype ImageInfo = ImageInfo(
    width: int, height: int, depth: int, internalFormat: int, target: Target,
    numberOfArrayElements: int, numberOfFaces: int, numberOfMipmapLevels: int,
    mipSizeStored: bool, data: Option<seq<Byte>>, dataOffset: int, dataSize: int)

  /**
    `LoadImageDataFromKTXFile` on the asset's bytes (`None` when the asset
    cannot be opened or read). The file is accepted iff it holds a whole
    header with the KTX 1.1 identifier, little-endian byte order,
    `GL_UNSIGNED_BYTE` data, and key/value data that ends before the end of
    the buffer.
   */
  function LoadImageDataFromKtxFile(asset: Option<seq<Byte>>): (r: Option<ImageInfo>)
    ensures r.Some? <==>
      asset.Some? && |asset.value| >= KTX_HEADER_SIZE
      && asset.value[..12] == KTX_IDENTIFIER
      && Field(asset.value, ENDIANNESS) == KTX_ENDIANNESS
      && Field(asset.value, GL_TYPE) == GL_UNSIGNED_BYTE
      && KTX_HEADER_SIZE + Field(asset.value, BYTES_OF_KEY_VALUE_DATA) < |asset.value|
    ensures r.Some? ==>
      var buf := asset.value;
      var info := r.value;
      && info.data == Some(buf) && info.dataSize == |buf|
      && info.dataOffset == KTX_HEADER_SIZE + Field(buf, BYTES_OF_KEY_VALUE_DATA)
      && info.mipSizeStored
      && info.width == Bytes.ToInt32(Field(buf, PIXEL_WIDTH))
      && info.numberOfFaces == Bytes.ToInt32(if Field(buf, NUMBER_OF_FACES) >= 1 then Field(buf, NUMBER_OF_FACES) else 1)
      && info.numberOfArrayElements
         == Bytes.ToInt32(if Field(buf, NUMBER_OF_ARRAY_ELEMENTS) >= 1 then Field(buf, NUMBER_OF_ARRAY_ELEMENTS) else 1)
      && info.target == TargetFor(info.depth, info.numberOfFaces, info.numberOfArrayElements)
      && WellFormed(info)
  {
    if asset.None? then None
    else
      var buf := asset.value;
      if |buf| < KTX_HEADER_SIZE then None
      else if buf[..12] != KTX_IDENTIFIER then None
      else if Field(buf, ENDIANNESS) != KTX_ENDIANNESS then None
      else if Field(buf, GL_TYPE) != GL_UNSIGNED_BYTE then None
      else
        var startTex := KTX_HEADER_SIZE + Field(buf, BYTES_OF_KEY_VALUE_DATA);
        if startTex < KTX_HEADER_SIZE || startTex >= |buf| then None
        else
          var faces := Field(buf, NUMBER_OF_FACES);
          var arrays := Field(buf, NUMBER_OF_ARRAY_ELEMENTS);
          var depth := Bytes.ToInt32(Field(buf, PIXEL_DEPTH));
          var numberOfFaces := Bytes.ToInt32(if faces >= 1 then faces else 1);
          var numberOfArrayElements := Bytes.ToInt32(if arrays >= 1 then arrays else 1);
          Some(ImageInfo(
            Bytes.ToInt32(Field(buf, PIXEL_WIDTH)), Bytes.ToInt32(Field(buf, PIXEL_HEIGHT)), depth,
            Bytes.ToInt32(Field(buf, GL_INTERNAL_FORMAT)), TargetFor(depth, numberOfFaces, numberOfArrayElements),
            numberOfArrayElements, numberOfFaces, Bytes.ToInt32(Field(buf, NUMBER_OF_MIPMAP_LEVELS)),
            true, Some(buf), startTex, |buf|))
  }

  /** A header shorter than 64 bytes, or with another identifier, is refused. */
  lemma ShortOrForeignFileRejected(buf: seq<Byte>)
    ensures |buf| < KTX_HEADER_SIZE ==> LoadImageDataFromKtxFile(Some(buf)).None?
    ensures |buf| >= KTX_HEADER_SIZE && buf[..12] != KTX_IDENTIFIER ==> LoadImageDataFromKtxFile(Some(buf)).None?
  {
  }

  // ---------------------------------------------------------------------
  // KTX mip walk

  /** The info a loaded texture may be walked with: its data range lies in its buffer. */
  predicate WellFormed(info: ImageInfo)
  {
    info.data.Some? ==> 0 <= info.dataOffset <= info.dataSize <= |info.data.value|
  }

  function Pow2(n: nat): (p: nat)
    ensures p >= 1
  {
    if n == 0 then 1 else 2 * Pow2(n - 1)
  }

  /** `(dim >> i) >= 1 ? (dim >> i) : 1`, with `>>` the arithmetic shift (a floor division). */
  function MipDim(dim: int, i: nat): (r: int)
    ensures r >= 1
    ensures dim >= 1 && i == 0 ==> r == dim
  {
    var shifted := dim / Pow2(i);
    if shifted >= 1 then shifted else 1
  }

  /** Euclidean division is determined by quotient and remainder. */
  lemma DivUnique(d: int, m: int, q: int, r: int)
    requires m >= 1 && d == m * q + r && 0 <= r < m
    ensures d / m == q
  {
    var x := d / m - q;
    assert m * x == r - d % m by {
      assert d == m * (d / m) + d % m;
      assert m * (d / m) == m * x + m * q;
    }
    MulBounds(m, x);
  }

  lemma MulBounds(m: int, x: int)
    requires m >= 1
    ensures x >= 1 ==> m * x >= m
    ensures x <= -1 ==> m * x <= -m
  {
  }

  lemma DivDiv(d: int, p: int)
    requires p >= 1
    ensures d / p / 2 == d / (2 * p)
  {
    var q := d / p;
    var r := d % p;
    var q2 := q / 2;
    var r2 := q % 2;
    assert d == p * q + r;
    assert q == 2 * q2 + r2;
    assert p * q == (2 * p) * q2 + p * r2;
    assert 0 <= p * r2 <= p;
    DivUnique(d, 2 * p, q2, p * r2 + r);
  }

  /** Each mip level halves the previous one's dimension, never going below 1. */
  lemma MipChainHalves(dim: int, i: nat)
    ensures MipDim(dim, i + 1) == if MipDim(dim, i) / 2 >= 1 then MipDim(dim, i) / 2 else 1
  {
    DivDiv(dim, Pow2(i));
  }

  /** Bytes per texel for the supported uncompressed formats; 0 for any other. */
  function BytesPerTexel(internalFormat: int): (n: nat)
    ensures n <= 4
    ensures n == 0 <==> internalFormat !in {GL_R8, GL_RG8, GL_RGB8, GL_RGBA8}
  {
    if internalFormat == GL_R8 then 1
    else if internalFormat == GL_RG8 then 2
    else if internalFormat == GL_RGB8 then 3
    else if internalFormat == GL_RGBA8 then 4
    else 0
  }

  /** The padding after an image whose size is stored: it rounds the size up to a multiple of 4. */
  function Pad(mipSize: nat): (p: nat)
    ensures p <= 3 && (mipSize + p) % 4 == 0
  {
    3 - ((mipSize + 3) % 4)
  }

  /** One `glTexSubImage2D` / `glTexSubImage3D` call: the bytes it reads from the buffer. */
  datatype Upload = Upload(level: nat, face: nat, width: int, height: int, offset: nat, size: nat)

  /** Every upload reads a non-empty range inside `[lo, hi)`. */
  predicate InRange(uploads: seq<Upload>, lo: int, hi: int)
  {
    forall k :: 0 <= k < |uploads| ==>
      (lo <= uploads[k].offset && uploads[k].offset + uploads[k].size <= hi && uploads[k].size > 0)
  }

  /** Every upload starts a multiple of 4 bytes after `origin`. */
  predicate Aligned(uploads: seq<Upload>, origin: int)
  {
    forall k :: 0 <= k < |uploads| ==> (uploads[k].offset - origin) % 4 == 0
  }

  /** Every upload carries the dimensions of its mip level. */
  predicate MipDims(uploads: seq<Upload>, width: int, height: int)
  {
    forall k :: 0 <= k < |uploads| ==>
      (uploads[k].width == MipDim(width, uploads[k].level) && uploads[k].height == MipDim(height, uploads[k].level))
  }

  /** Uploads per mip level: one per face for a plain or cube texture, one for the rest. */
  function UploadsPerLevel(info: ImageInfo): nat
  {
    if info.depth <= 1 && info.numberOfArrayElements <= 1 then
      (if info.numberOfFaces >= 0 then info.numberOfFaces else 0)
    else 1
  }

  lemma MultiplesOf4Add(a: int, b: int)
    requires a % 4 == 0 && b % 4 == 0
    ensures (a + b) % 4 == 0
  {
  }

  /**
    Uploads `count` images (one per face in the 2D/cube case, else one) of
    `mipSize` bytes each from `pos0`, padding after each when sizes are
    stored. Fails, without reading, as soon as an image would not fit.
   */
  method UploadImages(pos0: nat, end: nat, mipSize: int, stored: bool, level: nat, w: int, h: int, count: nat)
    returns (ok: bool, pos: nat, uploads: seq<Upload>)
    requires pos0 <= end
    ensures pos0 <= pos <= end
    ensures InRange(uploads, pos0, pos)
    ensures stored ==> Aligned(uploads, pos0)
    ensures stored && ok ==> (pos - pos0) % 4 == 0
    ensures ok ==> |uploads| == count
    ensures forall k :: 0 <= k < |uploads| ==>
      (uploads[k].level == level && uploads[k].width == w && uploads[k].height == h)
  {
    pos := pos0;
    uploads := [];
    var face := 0;
    while face < count
      invariant face <= count && pos0 <= pos <= end && |uploads| == face
      invariant InRange(uploads, pos0, pos)
      invariant stored ==> Aligned(uploads, pos0) && (pos - pos0) % 4 == 0
      invariant forall k :: 0 <= k < |uploads| ==>
        (uploads[k].level == level && uploads[k].width == w && uploads[k].height == h)
    {
      if mipSize <= 0 || mipSize > end - pos {
        return false, pos, uploads;
      }
      ghost var start := pos;
      uploads := uploads + [Upload(level, face, w, h, pos, mipSize)];
      pos := pos + mipSize;
      if stored {
        pos := pos + Pad(mipSize);
        MultiplesOf4Add(start - pos0, mipSize + Pad(mipSize));
        if pos > end {
          return false, end, uploads;
        }
      }
      face := face + 1;
    }
    ok := true;
  }

  /** `size_t` (64 bits on the arm64 build) holds values modulo 2^64. */
  const SIZE_T_LIMIT: int := 0x1_0000_0000_0000_0000

  /** The product of two C `int`s, wrapped to 32-bit two's complement as the hardware multiply leaves it. */
  function Int32Mul(a: int, b: int): (r: int)
    ensures -0x8000_0000 <= r < 0x8000_0000
    ensures (r - a * b) % Bytes.UINT32_LIMIT == 0
  {
    var u := (a * b) % Bytes.UINT32_LIMIT;
    SameRemainder(Bytes.ToInt32(u), a * b, Bytes.UINT32_LIMIT);
    Bytes.ToInt32(u)
  }

  /** A C value converted to `size_t`. */
  function SizeT(x: int): (r: int)
    ensures 0 <= r < SIZE_T_LIMIT
    ensures (r - x) % SIZE_T_LIMIT == 0
  {
    SameRemainder(x % SIZE_T_LIMIT, x, SIZE_T_LIMIT);
    x % SIZE_T_LIMIT
  }

  /** Every multiple of `m` leaves remainder 0. */
  lemma MultipleMod(m: int, q: int)
    requires m >= 1
    ensures (m * q) % m == 0
  {
    var x := m * q;
    var y := q - x / m;
    assert x == m * (x / m) + x % m;
    assert m * y == m * q - m * (x / m);
    assert m * y == x % m;
    MulBounds(m, y);
  }

  /** Values with the same remainder differ by a multiple of `m`. */
  lemma SameRemainder(x: int, y: int, m: int)
    requires m >= 1 && x % m == y % m
    ensures (x - y) % m == 0
  {
    assert x == m * (x / m) + x % m;
    assert y == m * (y / m) + y % m;
    assert x - y == m * (x / m) - m * (y / m);
    assert m * (x / m) - m * (y / m) == m * (x / m - y / m);
    MultipleMod(m, x / m - y / m);
  }

  /** A product of positive factors below 2^31 never wraps. */
  lemma Int32MulExact(a: int, b: int)
    requires 1 <= a && 1 <= b && a * b < 0x8000_0000
    ensures Int32Mul(a, b) == a * b
  {
  }

  /** Congruence modulo `m` survives multiplying both sides by the same factor. */
  lemma MulCongruent(a: int, c: int, b: int, m: int)
    requires m >= 1 && (a - c) % m == 0
    ensures (a * b - c * b) % m == 0
  {
    var t := (a - c) / m;
    assert a - c == m * t;
    assert a * b - c * b == (a - c) * b;
    assert (a - c) * b == m * (t * b);
    MultipleMod(m, t * b);
  }

  /** Congruence modulo `m` is transitive. */
  lemma CongruentTrans(x: int, y: int, z: int, m: int)
    requires m >= 1 && (x - y) % m == 0 && (y - z) % m == 0
    ensures (x - z) % m == 0
  {
    var a := (x - y) / m;
    var b := (y - z) / m;
    assert x - y == m * a;
    assert y - z == m * b;
    assert x - z == m * (a + b);
    MultipleMod(m, a + b);
  }

  /** A value strictly between `-m` and `m` that is congruent to `x` modulo `m` is zero exactly when `x` is a multiple of `m`. */
  lemma ZeroIffMultiple(r: int, x: int, m: int)
    requires m >= 1 && -m < r < m && (r - x) % m == 0
    ensures r == 0 <==> x % m == 0
  {
    var t := (r - x) / m;
    assert r - x == m * t;
    if r == 0 {
      assert x == m * (-t);
      MultipleMod(m, -t);
    }
    if x % m == 0 {
      var s := x / m;
      assert x == m * s;
      assert r == m * s + m * t;
      assert r == m * (s + t);
      MulBounds(m, s + t);
    }
  }

  /** `w * h * d * k * sizeof(unsigned char)`: three `int` multiplications, then the conversion to `size_t`. */
  function LevelProduct(w: int, h: int, d: int, k: int): (size: int)
    ensures 0 <= size < SIZE_T_LIMIT
    ensures size == 0 <==> (w * h * d * k) % Bytes.UINT32_LIMIT == 0
    ensures 1 <= w && 1 <= h && 1 <= d && 1 <= k && w * h * d * k < 0x8000_0000 ==> size == w * h * d * k
  {
    var bytes := Int32Mul(Int32Mul(Int32Mul(w, h), d), k);
    Int32ProductCongruent(w, h, d, k);
    ZeroIffMultiple(bytes, w * h * d * k, Bytes.UINT32_LIMIT);
    ZeroIffMultiple(SizeT(bytes), bytes, SIZE_T_LIMIT);
    ZeroIffMultiple(bytes, bytes, SIZE_T_LIMIT);
    ProductExactWhenSmall(w, h, d, k);
    SizeT(bytes)
  }

  /** The wrapped product agrees with the true one modulo 2^32. */
  lemma Int32ProductCongruent(w: int, h: int, d: int, k: int)
    ensures (Int32Mul(Int32Mul(Int32Mul(w, h), d), k) - w * h * d * k) % Bytes.UINT32_LIMIT == 0
  {
    var L := Bytes.UINT32_LIMIT;
    var area := Int32Mul(w, h);
    var volume := Int32Mul(area, d);
    var bytes := Int32Mul(volume, k);
    MulCongruent(area, w * h, d, L);
    CongruentTrans(volume, area * d, w * h * d, L);
    MulCongruent(volume, w * h * d, k, L);
    CongruentTrans(bytes, volume * k, w * h * d * k, L);
  }

  lemma ProductExactWhenSmall(w: int, h: int, d: int, k: int)
    ensures 1 <= w && 1 <= h && 1 <= d && 1 <= k && w * h * d * k < 0x8000_0000 ==>
      Int32Mul(Int32Mul(Int32Mul(w, h), d), k) == w * h * d * k && SizeT(w * h * d * k) == w * h * d * k
  {
    if 1 <= w && 1 <= h && 1 <= d && 1 <= k && w * h * d * k < 0x8000_0000 {
      ProductBounds(w, h, d, k);
      Int32MulExact(w, h);
      Int32MulExact(w * h, d);
      Int32MulExact(w * h * d, k);
    }
  }

  lemma ProductBounds(w: int, h: int, d: int, k: int)
    requires 1 <= w && 1 <= h && 1 <= d && 1 <= k
    ensures 1 <= w * h <= w * h * d <= w * h * d * k
  {
    MulBounds(w, h);
    MulBounds(w * h, d);
    MulBounds(w * h * d, k);
  }

  /**
    The size of one image of mip level `i`, as the 32-bit `int` product of
    its three dimensions and the bytes per texel, converted to `size_t`.
   */
  function TexelBytesOfLevel(im: ImageInfo, i: nat): (size: int)
    ensures 0 <= size < SIZE_T_LIMIT
    ensures BytesPerTexel(im.internalFormat) == 0 ==> size == 0
  {
    LevelProduct(MipDim(im.width, i), MipDim(im.height, i), MipDim(im.depth, i), BytesPerTexel(im.internalFormat))
  }

  /**
    The level size is zero exactly for an unsupported format or a true size
    that is a multiple of 2^32, and it is the true size whenever that fits
    in an `int`.
   */
  lemma TexelBytesOfLevelWraps(im: ImageInfo, i: nat)
    ensures
      var exact := MipDim(im.width, i) * MipDim(im.height, i) * MipDim(im.depth, i) * BytesPerTexel(im.internalFormat);
      && (TexelBytesOfLevel(im, i) == 0 <==> exact % Bytes.UINT32_LIMIT == 0)
      && (BytesPerTexel(im.internalFormat) != 0 && exact < 0x8000_0000 ==> TexelBytesOfLevel(im, i) == exact)
  {
  }

  /**
    A 32768 x 32768 RGBA8 level needs 2^32 bytes; the `int` product wraps
    to 0 and the level is refused as an unsupported format.
   */
  lemma WrappedRgba8LevelIsEmpty(im: ImageInfo)
    requires im.width == 32768 && im.height == 32768 && im.depth <= 1 && im.internalFormat == GL_RGBA8
    ensures TexelBytesOfLevel(im, 0) == 0
  {
    TexelBytesOfLevelWraps(im, 0);
    assert MipDim(im.depth, 0) == 1;
    assert 32768 * 32768 * 1 * 4 == Bytes.UINT32_LIMIT;
  }

  /** An array texture's level holds every element and face, as a `size_t` product; any other level keeps the single image size. */
  function ArrayLevelSize(im: ImageInfo, imageSize: int): (size: int)
    ensures im.numberOfArrayElements <= 1 ==> size == imageSize
    ensures im.numberOfArrayElements > 1 ==>
      0 <= size < SIZE_T_LIMIT && (size - imageSize * im.numberOfArrayElements * im.numberOfFaces) % SIZE_T_LIMIT == 0
  {
    if im.numberOfArrayElements > 1 then
      SizeTProductCongruent(imageSize, im.numberOfArrayElements, im.numberOfFaces);
      SizeT(SizeT(imageSize * SizeT(im.numberOfArrayElements)) * SizeT(im.numberOfFaces))
    else imageSize
  }

  /** The `size_t` product agrees with the true one modulo 2^64. */
  lemma SizeTProductCongruent(x: int, a: int, f: int)
    ensures (SizeT(SizeT(x * SizeT(a)) * SizeT(f)) - x * a * f) % SIZE_T_LIMIT == 0
  {
    var M := SIZE_T_LIMIT;
    var elements := SizeT(x * SizeT(a));
    MulCongruent(SizeT(a), a, x, M);
    assert (SizeT(a) * x - a * x) % M == 0;
    assert (x * SizeT(a) - x * a) % M == 0;
    CongruentTrans(elements, x * SizeT(a), x * a, M);
    MulCongruent(SizeT(f), f, elements, M);
    assert (elements * SizeT(f) - elements * f) % M == 0;
    MulCongruent(elements, x * a, f, M);
    CongruentTrans(elements * SizeT(f), elements * f, x * a * f, M);
    CongruentTrans(SizeT(elements * SizeT(f)), elements * SizeT(f), x * a * f, M);
  }

  /** Uploads aligned to an origin that is itself aligned to an earlier one are aligned to the earlier one. */
  lemma AlignedFromEarlierOrigin(uploads: seq<Upload>, origin: int, earlier: int)
    requires Aligned(uploads, origin) && (origin - earlier) % 4 == 0
    ensures Aligned(uploads, earlier)
  {
    forall k | 0 <= k < |uploads| ensures (uploads[k].offset - earlier) % 4 == 0 {
      assert (uploads[k].offset - origin) % 4 == 0;
    }
  }

  /**
    Mip level `i`: its dimensions, the format check, the stored size (read
    only when four bytes remain), then its images.
   */
  method LoadLevel(im: ImageInfo, data: seq<Byte>, pos0: nat, i: nat) returns (ok: bool, pos: nat, images: seq<Upload>)
    requires pos0 <= im.dataSize <= |data|
    ensures pos0 <= pos <= im.dataSize
    ensures BytesPerTexel(im.internalFormat) == 0 ==> !ok && images == []
    ensures TexelBytesOfLevel(im, i) == 0 ==> !ok && images == []
    ensures InRange(images, pos0, pos)
    ensures MipDims(images, im.width, im.height)
    ensures im.mipSizeStored && (pos0 - im.dataOffset) % 4 == 0 ==>
      Aligned(images, im.dataOffset) && (ok ==> (pos - im.dataOffset) % 4 == 0)
    ensures ok ==> |images| == UploadsPerLevel(im)
    ensures forall k :: 0 <= k < |images| ==>
      (images[k].level == i && images[k].width == MipDim(im.width, i) && images[k].height == MipDim(im.height, i))
  {
    var w := MipDim(im.width, i);
    var h := MipDim(im.height, i);
    var mipSize := TexelBytesOfLevel(im, i);
    if mipSize == 0 {
      return false, pos0, [];
    }
    mipSize := ArrayLevelSize(im, mipSize);
    pos := pos0;
    if im.mipSizeStored {
      if pos + 4 > im.dataSize {
        return false, pos, [];
      }
      mipSize := Bytes.U32LE(data, pos);
      pos := pos + 4;
    }
    ghost var start := pos;
    ok, pos, images := UploadImages(pos, im.dataSize, mipSize, im.mipSizeStored, i, w, h, UploadsPerLevel(im));
    if im.mipSizeStored && (pos0 - im.dataOffset) % 4 == 0 {
      assert (start - im.dataOffset) % 4 == 0;
      AlignedFromEarlierOrigin(images, start, im.dataOffset);
      if ok {
        assert (pos - start) % 4 == 0;
      }
    }
  }

  /**
    `LoadTextureFromKTXImageMemory`: walks the mip levels from `dataOffset`
    to `dataSize`, reading each level's stored size and uploading its
    images, and fails as soon as a read would pass the end of the data or
    a level's computed size is 0: the format is not one of R8, RG8, RGB8
    and RGBA8, or the 32-bit size product wrapped to 0.
   */
  method LoadTextureFromKtxImageMemory(info: Option<ImageInfo>) returns (ok: bool, uploads: seq<Upload>)
    requires info.Some? ==> WellFormed(info.value)
    ensures info.None? ==> !ok && uploads == []
    ensures info.Some? && info.value.data.None? ==> ok && uploads == []
    ensures info.Some? ==> InRange(uploads, info.value.dataOffset, info.value.dataSize)
    ensures info.Some? && info.value.mipSizeStored ==> Aligned(uploads, info.value.dataOffset)
    ensures (info.Some? && info.value.data.Some? && info.value.numberOfMipmapLevels >= 1
             && BytesPerTexel(info.value.internalFormat) == 0) ==> !ok && uploads == []
    ensures (info.Some? && info.value.data.Some? && info.value.numberOfMipmapLevels >= 1
             && TexelBytesOfLevel(info.value, 0) == 0) ==> !ok && uploads == []
    ensures (info.Some? && info.value.data.Some?
             && exists j: nat :: j < info.value.numberOfMipmapLevels && TexelBytesOfLevel(info.value, j) == 0) ==> !ok
    ensures ok && info.Some? && info.value.data.Some? && info.value.numberOfMipmapLevels >= 0 ==>
      |uploads| == info.value.numberOfMipmapLevels * UploadsPerLevel(info.value)
    ensures info.Some? ==> MipDims(uploads, info.value.width, info.value.height)
  {
    uploads := [];
    if info.None? {
      return false, uploads;
    }
    var im := info.value;
    if im.data.None? {
      return true, uploads;
    }
    ok, uploads := WalkLevels(im);
  }

  /** The mip-level loop of `LoadTextureFromKTXImageMemory`, over an image whose data is present. */
  method WalkLevels(im: ImageInfo) returns (ok: bool, uploads: seq<Upload>)
    requires im.data.Some? && WellFormed(im)
    ensures InRange(uploads, im.dataOffset, im.dataSize)
    ensures im.mipSizeStored ==> Aligned(uploads, im.dataOffset)
    ensures im.numberOfMipmapLevels >= 1 && BytesPerTexel(im.internalFormat) == 0 ==> !ok && uploads == []
    ensures im.numberOfMipmapLevels >= 1 && TexelBytesOfLevel(im, 0) == 0 ==> !ok && uploads == []
    ensures (exists j: nat :: j < im.numberOfMipmapLevels && TexelBytesOfLevel(im, j) == 0) ==> !ok
    ensures ok && im.numberOfMipmapLevels >= 0 ==> |uploads| == im.numberOfMipmapLevels * UploadsPerLevel(im)
    ensures MipDims(uploads, im.width, im.height)
  {
    uploads := [];
    var pos: nat := im.dataOffset;
    var i: nat := 0;
    while i < im.numberOfMipmapLevels
      invariant im.dataOffset <= pos <= im.dataSize
      invariant im.numberOfMipmapLevels >= 0 ==> i <= im.numberOfMipmapLevels
      invariant i == 0 ==> uploads == []
      invariant forall j: nat :: j < i ==> TexelBytesOfLevel(im, j) != 0
      invariant |uploads| == i * UploadsPerLevel(im)
      invariant InRange(uploads, im.dataOffset, pos)
      invariant im.mipSizeStored ==> Aligned(uploads, im.dataOffset) && (pos - im.dataOffset) % 4 == 0
      invariant MipDims(uploads, im.width, im.height)
    {
      var levelOk, next, all := AppendLevel(im, uploads, pos, i);
      uploads, pos := all, next;
      if !levelOk {
        return false, uploads;
      }
      assert (i + 1) * UploadsPerLevel(im) == i * UploadsPerLevel(im) + UploadsPerLevel(im);
      i := i + 1;
    }
    if i >= 1 {
      assert TexelBytesOfLevel(im, 0) != 0;
    }
    ok := true;
  }

  /** One pass of the mip-level loop: level `i`'s images appended to those of the earlier levels. */
  method AppendLevel(im: ImageInfo, uploads: seq<Upload>, pos: nat, i: nat) returns (levelOk: bool, next: nat, all: seq<Upload>)
    requires im.data.Some? && WellFormed(im) && im.dataOffset <= pos <= im.dataSize
    requires InRange(uploads, im.dataOffset, pos) && MipDims(uploads, im.width, im.height)
    requires im.mipSizeStored ==> Aligned(uploads, im.dataOffset) && (pos - im.dataOffset) % 4 == 0
    ensures pos <= next <= im.dataSize
    ensures InRange(all, im.dataOffset, next) && MipDims(all, im.width, im.height)
    ensures im.mipSizeStored ==> Aligned(all, im.dataOffset) && (levelOk ==> (next - im.dataOffset) % 4 == 0)
    ensures TexelBytesOfLevel(im, i) == 0 ==> !levelOk && all == uploads
    ensures levelOk ==> |all| == |uploads| + UploadsPerLevel(im)
  {
    var images;
    levelOk, next, images := LoadLevel(im, im.data.value, pos, i);
    InRangeAppend(uploads, images, im.dataOffset, pos, next);
    if im.mipSizeStored {
      AlignedAppend(uploads, images, im.dataOffset);
    }
    MipDimsAppend(uploads, images, im.width, im.height);
    all := uploads + images;
  }

  lemma InRangeAppend(uploads: seq<Upload>, images: seq<Upload>, lo: int, mid: int, hi: int)
    requires InRange(uploads, lo, mid) && InRange(images, mid, hi) && lo <= mid <= hi
    ensures InRange(uploads + images, lo, hi)
  {
    var all := uploads + images;
    forall k | 0 <= k < |all|
      ensures lo <= all[k].offset && all[k].offset + all[k].size <= hi && all[k].size > 0
    {
      if k < |uploads| {
        assert all[k] == uploads[k];
      } else {
        assert all[k] == images[k - |uploads|];
      }
    }
  }

  lemma AlignedAppend(uploads: seq<Upload>, images: seq<Upload>, origin: int)
    requires Aligned(uploads, origin) && Aligned(images, origin)
    ensures Aligned(uploads + images, origin)
  {
    var all := uploads + images;
    forall k | 0 <= k < |all| ensures (all[k].offset - origin) % 4 == 0 {
      if k < |uploads| {
        assert all[k] == uploads[k];
      } else {
        assert all[k] == images[k - |uploads|];
      }
    }
  }

  lemma MipDimsAppend(uploads: seq<Upload>, images: seq<Upload>, width: int, height: int)
    requires MipDims(uploads, width, height) && MipDims(images, width, height)
    ensures MipDims(uploads + images, width, height)
  {
    var all := uploads + images;
    forall k | 0 <= k < |all|
      ensures all[k].width == MipDim(width, all[k].level) && all[k].height == MipDim(height, all[k].level)
    {
      if k < |uploads| {
        assert all[k] == uploads[k];
      } else {
        assert all[k] == images[k - |uploads|];
      }
    }
  }

  // ---------------------------------------------------------------------
  // Display refresh rates
  // ---------------------------------------------------------------------

  /** `uint32_t` arithmetic wraps at this bound. */
  const UINT32_LIMIT: int := 0x1_0000_0000

  /**
    The refresh-rate part of `ovrApp`: the rates the runtime enumerated and
    the `uint32_t` request counter that a thumbstick click advances.
   */
  class DisplayRefreshRates {
    var supported: seq<real>
    var requestedIndex: int

    ghost predicate Valid()
      reads this
    {
      0 <= requestedIndex < UINT32_LIMIT && |supported| < UINT32_LIMIT
    }

    /** `ovrApp_Clear`: no rates, counter at zero. */
    constructor ()
      ensures Valid() && supported == [] && requestedIndex == 0
    {
      supported := [];
      requestedIndex := 0;
    }

    /** The two-call `xrEnumerateDisplayRefreshRatesFB` at start-up stores the runtime's list. */
    method SetSupported(rates: seq<real>)
      requires Valid() && |rates| < UINT32_LIMIT
      modifies this`supported
      ensures Valid() && supported == rates
    {
      supported := rates;
    }

    /**
      One request: the counter modulo the number of rates picks the rate,
      and the counter is incremented with `uint32_t` wrap-around. The source
      divides by the rate count unguarded, so a runtime that reports no
      rates is excluded.
     */
    method RequestNext() returns (index: int, rate: real)
      requires Valid() && |supported| > 0
      modifies this`requestedIndex
      ensures Valid()
      ensures 0 <= index < |supported| && rate == supported[index]
      ensures index == old(requestedIndex) % |supported|
      ensures requestedIndex == (old(requestedIndex) + 1) % UINT32_LIMIT
    {
      index := requestedIndex % |supported|;
      rate := supported[index];
      requestedIndex := (requestedIndex + 1) % UINT32_LIMIT;
    }
  }

  /**
    Away from the wrap-around of the counter, successive requests step
    through the rates in order and start over after the last one.
   */
  lemma RequestsCycle(counter: int, count: int)
    requires 0 <= counter && counter + 1 < UINT32_LIMIT && count > 0
    ensures (counter + 1) % count == (if counter % count == count - 1 then 0 else counter % count + 1)
  {
    DivUnique(counter + 1, count,
              if counter % count == count - 1 then counter / count + 1 else counter / count,
              if counter % count == count - 1 then 0 else counter % count + 1);
  }
}
