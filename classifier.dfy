/** The pixel-format classifier of `updateV4LFormat` (src/capture.cpp:426-546)
    and the capability gate `supportedFmt` (src/capture.cpp:347-377).

    The classifier is a switch whose case groups fall through into one
    another.  A group is the run of case labels that shares one body; the
    body of a group either breaks or falls into the next group. */
module Classifier {
  import opened Wrappers
  import opened Uapi
  import opened PixelFormats
  import opened FormatCodes
  import opened FormatTable

  /** The case groups of the switch, in source order. */
  datatype CaseGroup = PlanarYuv | PackedYuv | Hsv | Bayer | Luma | OpaqueRgb | SrgbRgb

  /** The five flags `updateV4LFormat` sets. */
  datatype FormatFlags = FormatFlags(
    isRgb: bool, isHsv: bool, isBayer: bool, usesGlRed: bool, acceptsSrgb: bool)

  /** The values the flags are reset to before the switch. */
  const ResetFlags := FormatFlags(true, false, false, false, true)

  /** The group whose case labels name a format. */
  function Group(p: PixelFormat): CaseGroup
  {
    match p
    case YUV422P | YUV420 | YVU420 | YUV420M | YVU420M | YUV422M | YVU422M
      | YUV444M | YVU444M | NV12 | NV21 | NV16 | NV61 | NV24 | NV42 | NV16M
      | NV61M | NV12M | NV21M => PlanarYuv
    case YUYV | YVYU | UYVY | VYUY | YUV444 | YUV555 | YUV565 | YUV32 | AYUV32
      | XYUV32 | VUYA32 | VUYX32 => PackedYuv
    case HSV24 | HSV32 => Hsv
    case SBGGR8 | SGBRG8 | SGRBG8 | SRGGB8 | SBGGR10 | SGBRG10 | SGRBG10
      | SRGGB10 | SBGGR12 | SGBRG12 | SGRBG12 | SRGGB12 | SBGGR16 | SGBRG16
      | SGRBG16 | SRGGB16 => Bayer
    case GREY | Y10 | Y12 | Y16 | Y16_BE | Z16 => Luma
    case BGR666 | RGB565 | RGB565X | RGB444 | XRGB444 | ARGB444 | XBGR444
      | ABGR444 | RGBX444 | RGBA444 | BGRX444 | BGRA444 | RGB32 | XRGB32
      | ARGB32 | RGBX32 | RGBA32 | BGR32 | XBGR32 | ABGR32 | BGRX32 | BGRA32 => OpaqueRgb
    case RGB24 | BGR24 | RGB555 | XRGB555 | ARGB555 | RGB555X | XRGB555X
      | ARGB555X | RGBX555 | RGBA555 | XBGR555 | ABGR555 | BGRX555 | BGRA555
      | RGB332 => SrgbRgb
  }

  /** The flag assignments in the body of one group. */
  function Effect(g: CaseGroup, f: FormatFlags): FormatFlags
  {
    match g
    case PlanarYuv => f.(usesGlRed := true)
    case PackedYuv => f.(isRgb := false, acceptsSrgb := false)
    case Hsv => f.(isRgb := false, isHsv := true, acceptsSrgb := false)
    case Bayer => f.(isBayer := true)
    case Luma => f.(usesGlRed := true)
    case OpaqueRgb => f.(acceptsSrgb := false)
    case SrgbRgb => f
  }

  /** The group a body falls through into, or None when it ends in `break`. */
  function FallsInto(g: CaseGroup): Option<CaseGroup>
  {
    match g
    case PlanarYuv => Some(PackedYuv)
    case Bayer => Some(Luma)
    case Luma => Some(OpaqueRgb)
    case OpaqueRgb => Some(SrgbRgb)
    case _ => None
  }

  /** A group's place in the switch; falling through always moves down. */
  function Position(g: CaseGroup): (n: nat)
    ensures n < 7
  {
    match g
    case PlanarYuv => 0
    case PackedYuv => 1
    case Hsv => 2
    case Bayer => 3
    case Luma => 4
    case OpaqueRgb => 5
    case SrgbRgb => 6
  }

  /** Executes the switch from the case group `g` on: its body, and the
      bodies it falls through into. */
  function Run(g: CaseGroup, f: FormatFlags): FormatFlags
    decreases 7 - Position(g)
  {
    var f' := Effect(g, f);
    match FallsInto(g)
    case None => f'
    case Some(next) => Run(next, f')
  }

  /** The classification of a format: the switch run on the reset flags. */
  function Flags(p: PixelFormat): FormatFlags
  {
    Run(Group(p), ResetFlags)
  }

  /** The classification of a raw code: `updateV4LFormat` accepts exactly
      the codes `formats[]` lists, and gives each the flags of the format
      whose code it is, which are consistent with one another. */
  function Classify(code: u32): (r: Option<FormatFlags>)
    ensures r.Some? <==> Listed(code)
    ensures r.Some? ==> forall q :: FourCC(q) == code ==> r.value == Flags(q)
    ensures r.Some? ==> (r.value.isHsv ==> !r.value.isRgb)
    ensures r.Some? ==> (r.value.isBayer ==> r.value.usesGlRed && r.value.isRgb)
    ensures r.Some? ==> (r.value.acceptsSrgb ==> r.value.isRgb && !r.value.usesGlRed)
  {
    DecodeListed(code);
    match Decode(code)
    case None => None
    case Some(p) =>
      OneFormatPerCode(code, p);
      FlagsConsistent(p);
      Some(Flags(p))
  }

  /** A code the switch decodes is the fourcc of that format and of no other. */
  lemma OneFormatPerCode(code: u32, p: PixelFormat)
    requires Decode(code) == Some(p)
    ensures forall q :: FourCC(q) == code ==> q == p
  {
    forall q | FourCC(q) == code
      ensures q == p
    {
      DecodeFourCC(q);
    }
  }

  /** What running the switch yields from each group, stated flag by flag:
      RGB unless a YUV or HSV group, HSV only for the HSV group, Bayer only
      for the Bayer group, the single-channel GL texture for planar YUV,
      Bayer and luma, and sRGB decoding only for the last group. */
  lemma {:induction false} RunFromReset(g: CaseGroup)
    ensures Run(g, ResetFlags).isRgb <==> g !in {PlanarYuv, PackedYuv, Hsv}
    ensures Run(g, ResetFlags).isHsv <==> g == Hsv
    ensures Run(g, ResetFlags).isBayer <==> g == Bayer
    ensures Run(g, ResetFlags).usesGlRed <==> g in {PlanarYuv, Bayer, Luma}
    ensures Run(g, ResetFlags).acceptsSrgb <==> g == SrgbRgb
  {
    match g
    case PlanarYuv =>
      assert Run(g, ResetFlags) == Run(PackedYuv, ResetFlags.(usesGlRed := true));
    case Bayer =>
      var f := ResetFlags.(isBayer := true);
      assert Run(g, ResetFlags) == Run(Luma, f);
      assert Run(Luma, f) == Run(OpaqueRgb, f.(usesGlRed := true));
      assert Run(OpaqueRgb, f.(usesGlRed := true)) == f.(usesGlRed := true, acceptsSrgb := false);
    case Luma =>
      var f := ResetFlags.(usesGlRed := true);
      assert Run(g, ResetFlags) == Run(OpaqueRgb, f);
    case OpaqueRgb =>
      assert Run(g, ResetFlags) == Run(SrgbRgb, ResetFlags.(acceptsSrgb := false));
    case _ =>
  }

  /** The relations between the flags that hold for every format. */
  lemma FlagsConsistent(p: PixelFormat)
    ensures Flags(p).isHsv ==> !Flags(p).isRgb
    ensures Flags(p).isBayer ==> Flags(p).usesGlRed && Flags(p).isRgb
    ensures Group(p) == PlanarYuv ==> Flags(p).usesGlRed && !Flags(p).isRgb
    ensures Flags(p).acceptsSrgb ==> Flags(p).isRgb && !Flags(p).usesGlRed
  {
    RunFromReset(Group(p));
  }

  /** The formats whose sRGB decoding survives the switch. */
  const SrgbFormats: set<PixelFormat> := {
    RGB24, BGR24, RGB555, XRGB555, ARGB555, RGB555X, XRGB555X, ARGB555X,
    RGBX555, RGBA555, XBGR555, ABGR555, BGRX555, BGRA555, RGB332 }

  /** `accepts_srgb` stays true exactly for RGB24, BGR24, the RGB555 family
      and RGB332; HSV is set exactly for the two HSV formats. */
  lemma FlagsOfFormats(p: PixelFormat)
    ensures Flags(p).acceptsSrgb <==> p in SrgbFormats
    ensures Flags(p).isHsv <==> p == HSV24 || p == HSV32
  {
    RunFromReset(Group(p));
    SrgbGroupMembers(p);
    HsvGroupMembers(p);
  }

  lemma SrgbGroupMembers(p: PixelFormat)
    ensures Group(p) == SrgbRgb <==> p in SrgbFormats
  {
  }

  lemma HsvGroupMembers(p: PixelFormat)
    ensures Group(p) == Hsv <==> p == HSV24 || p == HSV32
  {
  }

  /** The formats `supportedFmt` gates on byte-swap support. */
  const SwapGated: set<PixelFormat> := {RGB565X, Y16_BE}

  /** The formats `supportedFmt` refuses under OpenGL ES. */
  const GlesGated: set<PixelFormat> := {
    RGB555, XRGB555, ARGB555, RGB555X, XRGB555X, ARGB555X, RGBX555, RGBA555,
    XBGR555, ABGR555, BGRX555, BGRA555, YUV555, RGB332, BGR666 }

  /** Whether the renderer can display a format, given byte-swap support and
      whether the GL context is OpenGL ES. */
  function SupportedFormat(p: PixelFormat, haveSwapBytes: bool, isOpenGLES: bool): bool
  {
    match p
    case RGB565X | Y16_BE => haveSwapBytes
    case RGB555 | XRGB555 | ARGB555 | RGB555X | XRGB555X | ARGB555X | RGBX555
      | RGBA555 | XBGR555 | ABGR555 | BGRX555 | BGRA555 | YUV555 | RGB332
      | BGR666 => !isOpenGLES
    case _ => true
  }

  /** `supportedFmt` on a raw code: codes outside the switch are supported. */
  function SupportedFmt(code: u32, haveSwapBytes: bool, isOpenGLES: bool): bool
  {
    match Decode(code)
    case None => true
    case Some(p) => SupportedFormat(p, haveSwapBytes, isOpenGLES)
  }

  /** A format is refused exactly when it needs byte swapping that is not
      there, or is one of the formats OpenGL ES cannot upload. */
  lemma SupportedFormatRefusals(p: PixelFormat, haveSwapBytes: bool, isOpenGLES: bool)
    ensures !SupportedFormat(p, haveSwapBytes, isOpenGLES)
      <==> (p in SwapGated && !haveSwapBytes) || (p in GlesGated && isOpenGLES)
  {
  }

  /** `supportedFmt` on the code of a format decides that format, refuses
      nothing outside the formats table, and refuses nothing on a desktop GL
      context with byte swapping. */
  lemma SupportedFmtCodes(p: PixelFormat, code: u32, haveSwapBytes: bool, isOpenGLES: bool)
    ensures SupportedFmt(FourCC(p), haveSwapBytes, isOpenGLES) == SupportedFormat(p, haveSwapBytes, isOpenGLES)
    ensures !SupportedFmt(code, haveSwapBytes, isOpenGLES) ==> Decode(code).Some?
    ensures SupportedFmt(code, true, false)
  {
    DecodeFourCC(p);
  }

  /** More capability never refuses more formats. */
  lemma SupportedFmtMonotone(code: u32, swap1: bool, gles1: bool, swap2: bool, gles2: bool)
    requires swap1 ==> swap2
    requires gles2 ==> gles1
    ensures SupportedFmt(code, swap1, gles1) ==> SupportedFmt(code, swap2, gles2)
  {
  }
}
