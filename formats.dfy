// Texture-format negotiation: which half-float formats the renderer uses for
// one-, two- and four-channel fields, found by probing the backend for
// color-renderable formats and falling back to wider ones.

module Formats {
  import opened Wrappers

  /** The sized internal formats probed on WebGL 2, and the unsized RGBA of WebGL 1. */
  datatype InternalFormat = R16F | RG16F | RGBA16F | UnsizedRGBA | UnsizedRGB

  /** The pixel (transfer) formats passed alongside the internal format. */
  datatype PixelFormat = Red | RG | RGBA | RGB

  /** HALF_FLOAT on WebGL 2, HALF_FLOAT_OES from the half-float extension on WebGL 1. */
  datatype TexType = HalfFloat | HalfFloatOes | UnsignedByte

  datatype FormatPair = FormatPair(internalFormat: InternalFormat, format: PixelFormat)

  /**
   * The backend's answer to "can a texture of this format be attached to a
   * framebuffer and rendered to?". The answer comes from the graphics driver,
   * so it is left uninterpreted.
   */
  type Renderable = (InternalFormat, PixelFormat, TexType) -> bool

  /** How many fallbacks remain after a format: R16F -> RG16F -> RGBA16F -> none. */
  function FallbackRank(f: InternalFormat): nat {
    match f
    case R16F => 2
    case RG16F => 1
    case _ => 0
  }

  /**
   * getSupportedFormat: the requested pair when it is renderable; otherwise R16F
   * retries as (RG16F, RG), RG16F retries as (RGBA16F, RGBA), and anything else
   * has no supported format.
   */
  function GetSupportedFormat(renderable: Renderable, internalFormat: InternalFormat,
                              format: PixelFormat, texType: TexType): (r: Option<FormatPair>)
    decreases FallbackRank(internalFormat)
    ensures r.Some? ==> renderable(r.value.internalFormat, r.value.format, texType)
    ensures r == Some(FormatPair(internalFormat, format)) <==> renderable(internalFormat, format, texType)
    ensures r.Some? ==> FallbackRank(r.value.internalFormat) <= FallbackRank(internalFormat)
    ensures r.None? ==> !renderable(internalFormat, format, texType)
  {
    if !renderable(internalFormat, format, texType) then
      match internalFormat
      case R16F => GetSupportedFormat(renderable, RG16F, RG, texType)
      case RG16F => GetSupportedFormat(renderable, RGBA16F, RGBA, texType)
      case _ => None
    else
      Some(FormatPair(internalFormat, format))
  }

  /**
   * The number of renderability probes getSupportedFormat makes: one per
   * recursion level, so never more than three.
   */
  function ProbeCount(renderable: Renderable, internalFormat: InternalFormat,
                      format: PixelFormat, texType: TexType): (n: nat)
    decreases FallbackRank(internalFormat)
    ensures 1 <= n <= FallbackRank(internalFormat) + 1 <= 3
  {
    if !renderable(internalFormat, format, texType) then
      match internalFormat
      case R16F => 1 + ProbeCount(renderable, RG16F, RG, texType)
      case RG16F => 1 + ProbeCount(renderable, RGBA16F, RGBA, texType)
      case _ => 1
    else
      1
  }

  /** The candidates the fallback chain tries, in order (an independent, list-based statement of the chain). */
  function Candidates(internalFormat: InternalFormat, format: PixelFormat): (cs: seq<FormatPair>)
    ensures |cs| == FallbackRank(internalFormat) + 1
    ensures cs[0] == FormatPair(internalFormat, format)
  {
    match internalFormat
    case R16F => [FormatPair(R16F, format), FormatPair(RG16F, RG), FormatPair(RGBA16F, RGBA)]
    case RG16F => [FormatPair(RG16F, format), FormatPair(RGBA16F, RGBA)]
    case _ => [FormatPair(internalFormat, format)]
  }

  /** The first renderable candidate of a list, if any. */
  function FirstRenderable(renderable: Renderable, cs: seq<FormatPair>, texType: TexType): Option<FormatPair> {
    if cs == [] then None
    else if renderable(cs[0].internalFormat, cs[0].format, texType) then Some(cs[0])
    else FirstRenderable(renderable, cs[1..], texType)
  }

  /** The recursion of getSupportedFormat picks the first renderable format of its fallback chain. */
  lemma {:induction false} SupportedIsFirstRenderable(renderable: Renderable, internalFormat: InternalFormat,
                                                       format: PixelFormat, texType: TexType)
    ensures GetSupportedFormat(renderable, internalFormat, format, texType)
         == FirstRenderable(renderable, Candidates(internalFormat, format), texType)
    decreases FallbackRank(internalFormat)
  {
    var cs := Candidates(internalFormat, format);
    if !renderable(internalFormat, format, texType) {
      match internalFormat
      case R16F =>
        SupportedIsFirstRenderable(renderable, RG16F, RG, texType);
        assert cs[1..] == Candidates(RG16F, RG);
      case RG16F =>
        SupportedIsFirstRenderable(renderable, RGBA16F, RGBA, texType);
        assert cs[1..] == Candidates(RGBA16F, RGBA);
      case _ =>
        assert cs[1..] == [];
    }
  }

  /** What the context setup found: the three formats (null when unsupported), the texture type and linear filtering. */
  datatype Ext = Ext(formatRGBA: Option<FormatPair>, formatRG: Option<FormatPair>, formatR: Option<FormatPair>,
                     halfFloatTexType: TexType, supportLinearFiltering: bool)

  /**
   * The format part of getWebGLContext: WebGL 2 probes RGBA16F, RG16F and R16F
   * (with fallbacks), WebGL 1 probes unsized RGBA for all three.
   */
  function NegotiateFormats(isWebGL2: bool, renderable: Renderable, supportLinearFiltering: bool): (e: Ext)
    ensures e.halfFloatTexType == (if isWebGL2 then HalfFloat else HalfFloatOes)
    ensures e.supportLinearFiltering == supportLinearFiltering
    ensures isWebGL2 ==> e.formatR == GetSupportedFormat(renderable, R16F, Red, HalfFloat)
    ensures isWebGL2 ==> e.formatRG == GetSupportedFormat(renderable, RG16F, RG, HalfFloat)
    ensures isWebGL2 ==> e.formatRGBA == GetSupportedFormat(renderable, RGBA16F, RGBA, HalfFloat)
    ensures !isWebGL2 ==> e.formatR == e.formatRG == e.formatRGBA
    ensures !isWebGL2 ==> (e.formatRGBA == Some(FormatPair(UnsizedRGBA, RGBA))
                           <==> renderable(UnsizedRGBA, RGBA, HalfFloatOes))
    ensures !isWebGL2 ==> (e.formatRGBA.None? <==> !renderable(UnsizedRGBA, RGBA, HalfFloatOes))
  {
    var t := if isWebGL2 then HalfFloat else HalfFloatOes;
    if isWebGL2 then
      Ext(GetSupportedFormat(renderable, RGBA16F, RGBA, t), GetSupportedFormat(renderable, RG16F, RG, t),
          GetSupportedFormat(renderable, R16F, Red, t), t, supportLinearFiltering)
    else
      Ext(GetSupportedFormat(renderable, UnsizedRGBA, RGBA, t), GetSupportedFormat(renderable, UnsizedRGBA, RGBA, t),
          GetSupportedFormat(renderable, UnsizedRGBA, RGBA, t), t, supportLinearFiltering)
  }
}
