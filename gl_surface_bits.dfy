/**
  `ksGpuContext_BitsForSurfaceFormat` from
  `SampleCommon/Src/Render/GlWrapperWin32.c`: channel and depth bit counts
  for a surface colour and depth format. A total, side-effect-free
  function.
 */
module GlSurfaceBits {

  datatype ColorFormat = R5G6B5 | B5G6R5 | R8G8B8A8 | B8G8R8A8 | ColorFormatMax
  datatype DepthFormat = DepthNone | D16 | D24 | DepthFormatMax

  datatype SurfaceBits = SurfaceBits(
    redBits: nat, greenBits: nat, blueBits: nat, alphaBits: nat, colorBits: nat, depthBits: nat)

  function BitsForSurfaceFormat(colorFormat: ColorFormat, depthFormat: DepthFormat): (bits: SurfaceBits)
    ensures bits.colorBits == bits.redBits + bits.greenBits + bits.blueBits + bits.alphaBits
    ensures bits.colorBits == 16 || bits.colorBits == 32
    ensures bits.depthBits == 0 || bits.depthBits == 16 || bits.depthBits == 24
    ensures bits.depthBits == 0 <==> depthFormat !in {D16, D24}
  {
    var red := if colorFormat == R8G8B8A8 then 8 else if colorFormat == B8G8R8A8 then 8
               else if colorFormat == R5G6B5 then 5 else if colorFormat == B5G6R5 then 5 else 8;
    var green := if colorFormat == R8G8B8A8 then 8 else if colorFormat == B8G8R8A8 then 8
                 else if colorFormat == R5G6B5 then 6 else if colorFormat == B5G6R5 then 6 else 8;
    var blue := if colorFormat == R8G8B8A8 then 8 else if colorFormat == B8G8R8A8 then 8
                else if colorFormat == R5G6B5 then 5 else if colorFormat == B5G6R5 then 5 else 8;
    var alpha := if colorFormat == R8G8B8A8 then 8 else if colorFormat == B8G8R8A8 then 8
                 else if colorFormat == R5G6B5 then 0 else if colorFormat == B5G6R5 then 0 else 8;
    SurfaceBits(red, green, blue, alpha, red + green + blue + alpha,
                if depthFormat == D16 then 16 else if depthFormat == D24 then 24 else 0)
  }

  /** The 16-bit formats are 5/6/5 without alpha; every other colour format is 8 bits per channel. */
  lemma ChannelBits(colorFormat: ColorFormat, depthFormat: DepthFormat)
    ensures var b := BitsForSurfaceFormat(colorFormat, depthFormat);
            if colorFormat == R5G6B5 || colorFormat == B5G6R5 then
              b.redBits == 5 && b.greenBits == 6 && b.blueBits == 5 && b.alphaBits == 0 && b.colorBits == 16
            else
              b.redBits == 8 && b.greenBits == 8 && b.blueBits == 8 && b.alphaBits == 8 && b.colorBits == 32
  {
  }

  /** Depth bits: D16 gives 16, D24 gives 24, anything else none; the colour format does not matter. */
  lemma DepthBits(colorFormat: ColorFormat, depthFormat: DepthFormat)
    ensures BitsForSurfaceFormat(colorFormat, depthFormat).depthBits ==
            match depthFormat case D16 => 16 case D24 => 24 case _ => 0
  {
  }

  /** Every count fits the `unsigned char` fields of `ksGpuSurfaceBits`. */
  lemma BitsFitUnsignedChar(colorFormat: ColorFormat, depthFormat: DepthFormat)
    ensures var b := BitsForSurfaceFormat(colorFormat, depthFormat);
            b.colorBits <= 32 && b.depthBits <= 24
  {
  }
}
