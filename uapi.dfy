/** The Linux V4L2 user-space API values the viewer works with: the `__u32`
    type, the colorimetry enumerations of linux/videodev2.h and its three
    `V4L2_MAP_*_DEFAULT` macros.  The numeric values are those of the kernel
    header (chapter "Colorspaces" of the Linux Media Subsystem V4L2 uAPI). */
module Uapi {

  /** `__u32`: an unsigned 32-bit integer. */
  type u32 = x: int | 0 <= x < 0x1_0000_0000

  /** `int`: a signed 32-bit integer. */
  type i32 = x: int | -0x8000_0000 <= x < 0x8000_0000

  /** C's implicit conversion of an `int` to `__u32` (reduction modulo 2^32;
      Dafny's `%` never yields a negative remainder, as the C rule requires). */
  function ToU32(x: int): (r: u32)
    ensures 0 <= x < 0x1_0000_0000 ==> r == x
    ensures x == -1 ==> r == 0xffff_ffff
  {
    x % 0x1_0000_0000
  }

  /** The value ragna stores in an override field to mean "no override". */
  const NO_OVERRIDE: u32 := 0xffff_ffff

  // enum v4l2_colorspace
  const COLORSPACE_DEFAULT: u32 := 0
  const COLORSPACE_SMPTE170M: u32 := 1
  const COLORSPACE_SMPTE240M: u32 := 2
  const COLORSPACE_REC709: u32 := 3
  const COLORSPACE_BT878: u32 := 4
  const COLORSPACE_470_SYSTEM_M: u32 := 5
  const COLORSPACE_470_SYSTEM_BG: u32 := 6
  const COLORSPACE_JPEG: u32 := 7
  const COLORSPACE_SRGB: u32 := 8
  const COLORSPACE_OPRGB: u32 := 9
  const COLORSPACE_BT2020: u32 := 10
  const COLORSPACE_RAW: u32 := 11
  const COLORSPACE_DCI_P3: u32 := 12

  // enum v4l2_xfer_func
  const XFER_FUNC_DEFAULT: u32 := 0
  const XFER_FUNC_709: u32 := 1
  const XFER_FUNC_SRGB: u32 := 2
  const XFER_FUNC_OPRGB: u32 := 3
  const XFER_FUNC_SMPTE240M: u32 := 4
  const XFER_FUNC_NONE: u32 := 5
  const XFER_FUNC_DCI_P3: u32 := 6
  const XFER_FUNC_SMPTE2084: u32 := 7

  // enum v4l2_ycbcr_encoding and enum v4l2_hsv_encoding (one union field in struct v4l2_pix_format)
  const YCBCR_ENC_DEFAULT: u32 := 0
  const YCBCR_ENC_601: u32 := 1
  const YCBCR_ENC_709: u32 := 2
  const YCBCR_ENC_XV601: u32 := 3
  const YCBCR_ENC_XV709: u32 := 4
  const YCBCR_ENC_BT2020: u32 := 6
  const YCBCR_ENC_BT2020_CONST_LUM: u32 := 7
  const YCBCR_ENC_SMPTE240M: u32 := 8
  const HSV_ENC_180: u32 := 128
  const HSV_ENC_256: u32 := 129

  // enum v4l2_quantization
  const QUANTIZATION_DEFAULT: u32 := 0
  const QUANTIZATION_FULL_RANGE: u32 := 1
  const QUANTIZATION_LIM_RANGE: u32 := 2

  /** The nine colorspaces that `setV4LFormat` keeps as they are; every other
      value (DEFAULT, BT878, JPEG, RAW, anything unknown) is replaced. */
  predicate IsRecognizedColorspace(c: u32) {
    c == COLORSPACE_SMPTE170M || c == COLORSPACE_SMPTE240M || c == COLORSPACE_REC709 ||
    c == COLORSPACE_470_SYSTEM_M || c == COLORSPACE_470_SYSTEM_BG || c == COLORSPACE_SRGB ||
    c == COLORSPACE_OPRGB || c == COLORSPACE_BT2020 || c == COLORSPACE_DCI_P3
  }

  /** The three default-mapping macros, as the resolver receives them. */
  datatype DefaultMaps = DefaultMaps(
    xferFunc: u32 -> u32,                // V4L2_MAP_XFER_FUNC_DEFAULT(colsp)
    ycbcrEnc: u32 -> u32,                // V4L2_MAP_YCBCR_ENC_DEFAULT(colsp)
    quantization: (bool, u32, u32) -> u32 // V4L2_MAP_QUANTIZATION_DEFAULT(is_rgb_or_hsv, colsp, ycbcr_enc)
  )

  /** What the resolver relies on: no macro ever answers with a DEFAULT sentinel. */
  predicate ValidMaps(m: DefaultMaps) {
    && (forall c :: m.xferFunc(c) != XFER_FUNC_DEFAULT)
    && (forall c :: m.ycbcrEnc(c) != YCBCR_ENC_DEFAULT)
    && (forall rgb, c, e :: m.quantization(rgb, c, e) != QUANTIZATION_DEFAULT)
  }

  /** V4L2_MAP_XFER_FUNC_DEFAULT as linux/videodev2.h defines it. */
  function MapXferFuncDefault(colsp: u32): (r: u32)
    ensures r != XFER_FUNC_DEFAULT
    ensures (colsp == COLORSPACE_SRGB || colsp == COLORSPACE_JPEG) <==> r == XFER_FUNC_SRGB
  {
    if colsp == COLORSPACE_OPRGB then XFER_FUNC_OPRGB
    else if colsp == COLORSPACE_SMPTE240M then XFER_FUNC_SMPTE240M
    else if colsp == COLORSPACE_DCI_P3 then XFER_FUNC_DCI_P3
    else if colsp == COLORSPACE_RAW then XFER_FUNC_NONE
    else if colsp == COLORSPACE_SRGB || colsp == COLORSPACE_JPEG then XFER_FUNC_SRGB
    else XFER_FUNC_709
  }

  /** V4L2_MAP_YCBCR_ENC_DEFAULT as linux/videodev2.h defines it. */
  function MapYcbcrEncDefault(colsp: u32): (r: u32)
    ensures r != YCBCR_ENC_DEFAULT
  {
    if colsp == COLORSPACE_REC709 || colsp == COLORSPACE_DCI_P3 then YCBCR_ENC_709
    else if colsp == COLORSPACE_BT2020 then YCBCR_ENC_BT2020
    else if colsp == COLORSPACE_SMPTE240M then YCBCR_ENC_SMPTE240M
    else YCBCR_ENC_601
  }

  /** V4L2_MAP_QUANTIZATION_DEFAULT as linux/videodev2.h defines it (the
      encoding argument is unused by the current header). */
  function MapQuantizationDefault(isRgbOrHsv: bool, colsp: u32, ycbcrEnc: u32): (r: u32)
    ensures r == QUANTIZATION_FULL_RANGE || r == QUANTIZATION_LIM_RANGE
    ensures r == QUANTIZATION_FULL_RANGE <==> isRgbOrHsv || colsp == COLORSPACE_JPEG
  {
    if isRgbOrHsv || colsp == COLORSPACE_JPEG then QUANTIZATION_FULL_RANGE else QUANTIZATION_LIM_RANGE
  }

  /** The macros of the kernel header, bundled for the resolver. */
  const KernelMaps: DefaultMaps :=
    DefaultMaps(MapXferFuncDefault, MapYcbcrEncDefault,
                (rgb: bool, c: u32, e: u32) => MapQuantizationDefault(rgb, c, e))

  lemma KernelMapsValid()
    ensures ValidMaps(KernelMaps)
  {
  }
}
