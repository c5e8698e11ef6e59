/** The pixel formats ragna accepts: the zero-terminated `formats[]` table
    (src/capture.cpp:19-113) as an enumeration, with the V4L2 fourcc code of
    each member (v4l2_fourcc(a, b, c, d) = a | b << 8 | c << 16 | d << 24, and
    v4l2_fourcc_be sets bit 31 as well; values from linux/videodev2.h). */
module PixelFormats {
  import opened Wrappers
  import opened Uapi

  datatype PixelFormat =
    YUYV | YVYU | UYVY | VYUY | YUV422P | YVU420 | YUV420 | NV12
    | NV21 | NV16 | NV61 | NV24 | NV42 | NV16M | NV61M | YVU420M
    | YUV420M | YVU422M | YUV422M | YVU444M | YUV444M | NV12M | NV21M | YUV444
    | YUV555 | YUV565 | YUV32 | AYUV32 | XYUV32 | VUYA32 | VUYX32 | RGB32
    | XRGB32 | ARGB32 | RGBX32 | RGBA32 | BGR32 | XBGR32 | ABGR32 | BGRX32
    | BGRA32 | RGB24 | BGR24 | RGB565 | RGB565X | RGB444 | XRGB444 | ARGB444
    | XBGR444 | ABGR444 | RGBX444 | RGBA444 | BGRX444 | BGRA444 | RGB555 | XRGB555
    | ARGB555 | RGB555X | XRGB555X | ARGB555X | RGBX555 | RGBA555 | XBGR555 | ABGR555
    | BGRX555 | BGRA555 | RGB332 | BGR666 | SBGGR8 | SGBRG8 | SGRBG8 | SRGGB8
    | SBGGR10 | SGBRG10 | SGRBG10 | SRGGB10 | SBGGR12 | SGBRG12 | SGRBG12 | SRGGB12
    | SBGGR16 | SGBRG16 | SGRBG16 | SRGGB16 | HSV24 | HSV32 | GREY | Y10
    | Y12 | Y16 | Y16_BE | Z16

  /** The fourcc code the device reports for a format. */
  function FourCC(p: PixelFormat): (r: u32)
    ensures r != 0
  {
    match p
    case YUYV => 0x56595559 // 'YUYV'
    case YVYU => 0x55595659 // 'YVYU'
    case UYVY => 0x59565955 // 'UYVY'
    case VYUY => 0x59555956 // 'VYUY'
    case YUV422P => 0x50323234 // '422P'
    case YVU420 => 0x32315659 // 'YV12'
    case YUV420 => 0x32315559 // 'YU12'
    case NV12 => 0x3231564e // 'NV12'
    case NV21 => 0x3132564e // 'NV21'
    case NV16 => 0x3631564e // 'NV16'
    case NV61 => 0x3136564e // 'NV61'
    case NV24 => 0x3432564e // 'NV24'
    case NV42 => 0x3234564e // 'NV42'
    case NV16M => 0x36314d4e // 'NM16'
    case NV61M => 0x31364d4e // 'NM61'
    case YVU420M => 0x31324d59 // 'YM21'
    case YUV420M => 0x32314d59 // 'YM12'
    case YVU422M => 0x31364d59 // 'YM61'
    case YUV422M => 0x36314d59 // 'YM16'
    case YVU444M => 0x32344d59 // 'YM42'
    case YUV444M => 0x34324d59 // 'YM24'
    case NV12M => 0x32314d4e // 'NM12'
    case NV21M => 0x31324d4e // 'NM21'
    case YUV444 => 0x34343459 // 'Y444'
    case YUV555 => 0x4f565559 // 'YUVO'
    case YUV565 => 0x50565559 // 'YUVP'
    case YUV32 => 0x34565559 // 'YUV4'
    case AYUV32 => 0x56555941 // 'AYUV'
    case XYUV32 => 0x56555958 // 'XYUV'
    case VUYA32 => 0x41595556 // 'VUYA'
    case VUYX32 => 0x58595556 // 'VUYX'
    case RGB32 => 0x34424752 // 'RGB4'
    case XRGB32 => 0x34325842 // 'BX24'
    case ARGB32 => 0x34324142 // 'BA24'
    case RGBX32 => 0x34324258 // 'XB24'
    case RGBA32 => 0x34324241 // 'AB24'
    case BGR32 => 0x34524742 // 'BGR4'
    case XBGR32 => 0x34325258 // 'XR24'
    case ABGR32 => 0x34325241 // 'AR24'
    case BGRX32 => 0x34325852 // 'RX24'
    case BGRA32 => 0x34324152 // 'RA24'
    case RGB24 => 0x33424752 // 'RGB3'
    case BGR24 => 0x33524742 // 'BGR3'
    case RGB565 => 0x50424752 // 'RGBP'
    case RGB565X => 0x52424752 // 'RGBR'
    case RGB444 => 0x34343452 // 'R444'
    case XRGB444 => 0x32315258 // 'XR12'
    case ARGB444 => 0x32315241 // 'AR12'
    case XBGR444 => 0x32314258 // 'XB12'
    case ABGR444 => 0x32314241 // 'AB12'
    case RGBX444 => 0x32315852 // 'RX12'
    case RGBA444 => 0x32314152 // 'RA12'
    case BGRX444 => 0x32315842 // 'BX12'
    case BGRA444 => 0x32314147 // 'GA12'
    case RGB555 => 0x4f424752 // 'RGBO'
    case XRGB555 => 0x35315258 // 'XR15'
    case ARGB555 => 0x35315241 // 'AR15'
    case RGB555X => 0x51424752 // 'RGBQ'
    case XRGB555X => 0xb5315258 // 'XR15' big-endian
    case ARGB555X => 0xb5315241 // 'AR15' big-endian
    case RGBX555 => 0x35315852 // 'RX15'
    case RGBA555 => 0x35314152 // 'RA15'
    case XBGR555 => 0x35314258 // 'XB15'
    case ABGR555 => 0x35314241 // 'AB15'
    case BGRX555 => 0x35315842 // 'BX15'
    case BGRA555 => 0x35314142 // 'BA15'
    case RGB332 => 0x31424752 // 'RGB1'
    case BGR666 => 0x48524742 // 'BGRH'
    case SBGGR8 => 0x31384142 // 'BA81'
    case SGBRG8 => 0x47524247 // 'GBRG'
    case SGRBG8 => 0x47425247 // 'GRBG'
    case SRGGB8 => 0x42474752 // 'RGGB'
    case SBGGR10 => 0x30314742 // 'BG10'
    case SGBRG10 => 0x30314247 // 'GB10'
    case SGRBG10 => 0x30314142 // 'BA10'
    case SRGGB10 => 0x30314752 // 'RG10'
    case SBGGR12 => 0x32314742 // 'BG12'
    case SGBRG12 => 0x32314247 // 'GB12'
    case SGRBG12 => 0x32314142 // 'BA12'
    case SRGGB12 => 0x32314752 // 'RG12'
    case SBGGR16 => 0x32525942 // 'BYR2'
    case SGBRG16 => 0x36314247 // 'GB16'
    case SGRBG16 => 0x36315247 // 'GR16'
    case SRGGB16 => 0x36314752 // 'RG16'
    case HSV24 => 0x33565348 // 'HSV3'
    case HSV32 => 0x34565348 // 'HSV4'
    case GREY => 0x59455247 // 'GREY'
    case Y10 => 0x20303159 // 'Y10 '
    case Y12 => 0x20323159 // 'Y12 '
    case Y16 => 0x20363159 // 'Y16 '
    case Y16_BE => 0xa0363159 // 'Y16 ' big-endian
    case Z16 => 0x2036315a // 'Z16 '
  }

  /** The case labels of the source's switch statements: which format, if any,
      a raw code names.  Codes outside the table decode to None.  The labels
      are grouped by the first character of the code (its low byte), which
      does not change which label a code matches. */
  function Decode(code: u32): (r: Option<PixelFormat>)
  {
    match code % 0x100
    case 0x59 => DecodeY(code) // 'Y'
    case 0x55 => DecodeU(code) // 'U'
    case 0x56 => DecodeV(code) // 'V'
    case 0x34 => Decode4(code) // '4'
    case 0x4e => DecodeN(code) // 'N'
    case 0x41 => DecodeA(code) // 'A'
    case 0x58 => DecodeX(code) // 'X'
    case 0x52 => DecodeR(code) // 'R'
    case 0x42 => DecodeB(code) // 'B'
    case 0x47 => DecodeG(code) // 'G'
    case 0x48 => DecodeH(code) // 'H'
    case 0x5a => DecodeZ(code) // 'Z'
    case _ => None
  }

  /** The labels whose code starts with 'Y'. */
  function DecodeY(code: u32): (r: Option<PixelFormat>)
  {
    match code
    case 0x56595559 => Some(YUYV)
    case 0x55595659 => Some(YVYU)
    case 0x32315659 => Some(YVU420)
    case 0x32315559 => Some(YUV420)
    case 0x31324d59 => Some(YVU420M)
    case 0x32314d59 => Some(YUV420M)
    case 0x31364d59 => Some(YVU422M)
    case 0x36314d59 => Some(YUV422M)
    case 0x32344d59 => Some(YVU444M)
    case 0x34324d59 => Some(YUV444M)
    case 0x34343459 => Some(YUV444)
    case 0x4f565559 => Some(YUV555)
    case 0x50565559 => Some(YUV565)
    case 0x34565559 => Some(YUV32)
    case 0x20303159 => Some(Y10)
    case 0x20323159 => Some(Y12)
    case 0x20363159 => Some(Y16)
    case 0xa0363159 => Some(Y16_BE)
    case _ => None
  }

  /** The labels whose code starts with 'U'. */
  function DecodeU(code: u32): (r: Option<PixelFormat>)
  {
    match code
    case 0x59565955 => Some(UYVY)
    case _ => None
  }

  /** The labels whose code starts with 'V'. */
  function DecodeV(code: u32): (r: Option<PixelFormat>)
  {
    match code
    case 0x59555956 => Some(VYUY)
    case 0x41595556 => Some(VUYA32)
    case 0x58595556 => Some(VUYX32)
    case _ => None
  }

  /** The labels whose code starts with '4'. */
  function Decode4(code: u32): (r: Option<PixelFormat>)
  {
    match code
    case 0x50323234 => Some(YUV422P)
    case _ => None
  }

  /** The labels whose code starts with 'N'. */
  function DecodeN(code: u32): (r: Option<PixelFormat>)
  {
    match code
    case 0x3231564e => Some(NV12)
    case 0x3132564e => Some(NV21)
    case 0x3631564e => Some(NV16)
    case 0x3136564e => Some(NV61)
    case 0x3432564e => Some(NV24)
    case 0x3234564e => Some(NV42)
    case 0x36314d4e => Some(NV16M)
    case 0x31364d4e => Some(NV61M)
    case 0x32314d4e => Some(NV12M)
    case 0x31324d4e => Some(NV21M)
    case _ => None
  }

  /** The labels whose code starts with 'A'. */
  function DecodeA(code: u32): (r: Option<PixelFormat>)
  {
    match code
    case 0x56555941 => Some(AYUV32)
    case 0x34324241 => Some(RGBA32)
    case 0x34325241 => Some(ABGR32)
    case 0x32315241 => Some(ARGB444)
    case 0x32314241 => Some(ABGR444)
    case 0x35315241 => Some(ARGB555)
    case 0xb5315241 => Some(ARGB555X)
    case 0x35314241 => Some(ABGR555)
    case _ => None
  }

  /** The labels whose code starts with 'X'. */
  function DecodeX(code: u32): (r: Option<PixelFormat>)
  {
    match code
    case 0x56555958 => Some(XYUV32)
    case 0x34324258 => Some(RGBX32)
    case 0x34325258 => Some(XBGR32)
    case 0x32315258 => Some(XRGB444)
    case 0x32314258 => Some(XBGR444)
    case 0x35315258 => Some(XRGB555)
    case 0xb5315258 => Some(XRGB555X)
    case 0x35314258 => Some(XBGR555)
    case _ => None
  }

  /** The labels whose code starts with 'R'. */
  function DecodeR(code: u32): (r: Option<PixelFormat>)
  {
    match code
    case 0x34424752 => Some(RGB32)
    case 0x34325852 => Some(BGRX32)
    case 0x34324152 => Some(BGRA32)
    case 0x33424752 => Some(RGB24)
    case 0x50424752 => Some(RGB565)
    case 0x52424752 => Some(RGB565X)
    case 0x34343452 => Some(RGB444)
    case 0x32315852 => Some(RGBX444)
    case 0x32314152 => Some(RGBA444)
    case 0x4f424752 => Some(RGB555)
    case 0x51424752 => Some(RGB555X)
    case 0x35315852 => Some(RGBX555)
    case 0x35314152 => Some(RGBA555)
    case 0x31424752 => Some(RGB332)
    case 0x42474752 => Some(SRGGB8)
    case 0x30314752 => Some(SRGGB10)
    case 0x32314752 => Some(SRGGB12)
    case 0x36314752 => Some(SRGGB16)
    case _ => None
  }

  /** The labels whose code starts with 'B'. */
  function DecodeB(code: u32): (r: Option<PixelFormat>)
  {
    match code
    case 0x34325842 => Some(XRGB32)
    case 0x34324142 => Some(ARGB32)
    case 0x34524742 => Some(BGR32)
    case 0x33524742 => Some(BGR24)
    case 0x32315842 => Some(BGRX444)
    case 0x35315842 => Some(BGRX555)
    case 0x35314142 => Some(BGRA555)
    case 0x48524742 => Some(BGR666)
    case 0x31384142 => Some(SBGGR8)
    case 0x30314742 => Some(SBGGR10)
    case 0x30314142 => Some(SGRBG10)
    case 0x32314742 => Some(SBGGR12)
    case 0x32314142 => Some(SGRBG12)
    case 0x32525942 => Some(SBGGR16)
    case _ => None
  }

  /** The labels whose code starts with 'G'. */
  function DecodeG(code: u32): (r: Option<PixelFormat>)
  {
    match code
    case 0x32314147 => Some(BGRA444)
    case 0x47524247 => Some(SGBRG8)
    case 0x47425247 => Some(SGRBG8)
    case 0x30314247 => Some(SGBRG10)
    case 0x32314247 => Some(SGBRG12)
    case 0x36314247 => Some(SGBRG16)
    case 0x36315247 => Some(SGRBG16)
    case 0x59455247 => Some(GREY)
    case _ => None
  }

  /** The labels whose code starts with 'H'. */
  function DecodeH(code: u32): (r: Option<PixelFormat>)
  {
    match code
    case 0x33565348 => Some(HSV24)
    case 0x34565348 => Some(HSV32)
    case _ => None
  }

  /** The labels whose code starts with 'Z'. */
  function DecodeZ(code: u32): (r: Option<PixelFormat>)
  {
    match code
    case 0x2036315a => Some(Z16)
    case _ => None
  }


}

/** The switch labels decode exactly the codes of their formats. */
module FormatCodes {
  import opened Wrappers
  import opened Uapi
  import opened PixelFormats

  lemma DecodeYSound0(code: u32)
    ensures (code == 0x56595559 || code == 0x55595659 || code == 0x32315659) ==> DecodeY(code).Some? && FourCC(DecodeY(code).value) == code
  {
    match code
    case 0x56595559 => assert DecodeY(code) == Some(YUYV); assert FourCC(YUYV) == 0x56595559;
    case 0x55595659 => assert DecodeY(code) == Some(YVYU); assert FourCC(YVYU) == 0x55595659;
    case 0x32315659 => assert DecodeY(code) == Some(YVU420); assert FourCC(YVU420) == 0x32315659;
    case _ =>
  }

  lemma DecodeYSound1(code: u32)
    ensures (code == 0x32315559 || code == 0x31324d59 || code == 0x32314d59) ==> DecodeY(code).Some? && FourCC(DecodeY(code).value) == code
  {
    match code
    case 0x32315559 => assert DecodeY(code) == Some(YUV420); assert FourCC(YUV420) == 0x32315559;
    case 0x31324d59 => assert DecodeY(code) == Some(YVU420M); assert FourCC(YVU420M) == 0x31324d59;
    case 0x32314d59 => assert DecodeY(code) == Some(YUV420M); assert FourCC(YUV420M) == 0x32314d59;
    case _ =>
  }

  lemma DecodeYSound2(code: u32)
    ensures (code == 0x31364d59 || code == 0x36314d59 || code == 0x32344d59) ==> DecodeY(code).Some? && FourCC(DecodeY(code).value) == code
  {
    match code
    case 0x31364d59 => assert DecodeY(code) == Some(YVU422M); assert FourCC(YVU422M) == 0x31364d59;
    case 0x36314d59 => assert DecodeY(code) == Some(YUV422M); assert FourCC(YUV422M) == 0x36314d59;
    case 0x32344d59 => assert DecodeY(code) == Some(YVU444M); assert FourCC(YVU444M) == 0x32344d59;
    case _ =>
  }

  lemma DecodeYSound3(code: u32)
    ensures (code == 0x34324d59 || code == 0x34343459 || code == 0x4f565559) ==> DecodeY(code).Some? && FourCC(DecodeY(code).value) == code
  {
    match code
    case 0x34324d59 => assert DecodeY(code) == Some(YUV444M); assert FourCC(YUV444M) == 0x34324d59;
    case 0x34343459 => assert DecodeY(code) == Some(YUV444); assert FourCC(YUV444) == 0x34343459;
    case 0x4f565559 => assert DecodeY(code) == Some(YUV555); assert FourCC(YUV555) == 0x4f565559;
    case _ =>
  }

  lemma DecodeYSound4(code: u32)
    ensures (code == 0x50565559 || code == 0x34565559 || code == 0x20303159) ==> DecodeY(code).Some? && FourCC(DecodeY(code).value) == code
  {
    match code
    case 0x50565559 => assert DecodeY(code) == Some(YUV565); assert FourCC(YUV565) == 0x50565559;
    case 0x34565559 => assert DecodeY(code) == Some(YUV32); assert FourCC(YUV32) == 0x34565559;
    case 0x20303159 => assert DecodeY(code) == Some(Y10); assert FourCC(Y10) == 0x20303159;
    case _ =>
  }

  lemma DecodeYSound5(code: u32)
    ensures (code == 0x20323159 || code == 0x20363159 || code == 0xa0363159) ==> DecodeY(code).Some? && FourCC(DecodeY(code).value) == code
  {
    match code
    case 0x20323159 => assert DecodeY(code) == Some(Y12); assert FourCC(Y12) == 0x20323159;
    case 0x20363159 => assert DecodeY(code) == Some(Y16); assert FourCC(Y16) == 0x20363159;
    case 0xa0363159 => assert DecodeY(code) == Some(Y16_BE); assert FourCC(Y16_BE) == 0xa0363159;
    case _ =>
  }

  lemma DecodeYSound(code: u32)
    ensures DecodeY(code).Some? ==> FourCC(DecodeY(code).value) == code
  {
    DecodeYSound0(code);
    DecodeYSound1(code);
    DecodeYSound2(code);
    DecodeYSound3(code);
    DecodeYSound4(code);
    DecodeYSound5(code);
  }

  lemma DecodeUSound(code: u32)
    ensures DecodeU(code).Some? ==> FourCC(DecodeU(code).value) == code
  {
    match code
    case 0x59565955 => assert DecodeU(code) == Some(UYVY); assert FourCC(UYVY) == 0x59565955;
    case _ => assert DecodeU(code) == None;
  }

  lemma DecodeVSound(code: u32)
    ensures DecodeV(code).Some? ==> FourCC(DecodeV(code).value) == code
  {
    match code
    case 0x59555956 => assert DecodeV(code) == Some(VYUY); assert FourCC(VYUY) == 0x59555956;
    case 0x41595556 => assert DecodeV(code) == Some(VUYA32); assert FourCC(VUYA32) == 0x41595556;
    case 0x58595556 => assert DecodeV(code) == Some(VUYX32); assert FourCC(VUYX32) == 0x58595556;
    case _ => assert DecodeV(code) == None;
  }

  lemma Decode4Sound(code: u32)
    ensures Decode4(code).Some? ==> FourCC(Decode4(code).value) == code
  {
    match code
    case 0x50323234 => assert Decode4(code) == Some(YUV422P); assert FourCC(YUV422P) == 0x50323234;
    case _ => assert Decode4(code) == None;
  }

  lemma DecodeNSound0(code: u32)
    ensures (code == 0x3231564e || code == 0x3132564e || code == 0x3631564e) ==> DecodeN(code).Some? && FourCC(DecodeN(code).value) == code
  {
    match code
    case 0x3231564e => assert DecodeN(code) == Some(NV12); assert FourCC(NV12) == 0x3231564e;
    case 0x3132564e => assert DecodeN(code) == Some(NV21); assert FourCC(NV21) == 0x3132564e;
    case 0x3631564e => assert DecodeN(code) == Some(NV16); assert FourCC(NV16) == 0x3631564e;
    case _ =>
  }

  lemma DecodeNSound1(code: u32)
    ensures (code == 0x3136564e || code == 0x3432564e || code == 0x3234564e) ==> DecodeN(code).Some? && FourCC(DecodeN(code).value) == code
  {
    match code
    case 0x3136564e => assert DecodeN(code) == Some(NV61); assert FourCC(NV61) == 0x3136564e;
    case 0x3432564e => assert DecodeN(code) == Some(NV24); assert FourCC(NV24) == 0x3432564e;
    case 0x3234564e => assert DecodeN(code) == Some(NV42); assert FourCC(NV42) == 0x3234564e;
    case _ =>
  }

  lemma DecodeNSound2(code: u32)
    ensures (code == 0x36314d4e || code == 0x31364d4e || code == 0x32314d4e) ==> DecodeN(code).Some? && FourCC(DecodeN(code).value) == code
  {
    match code
    case 0x36314d4e => assert DecodeN(code) == Some(NV16M); assert FourCC(NV16M) == 0x36314d4e;
    case 0x31364d4e => assert DecodeN(code) == Some(NV61M); assert FourCC(NV61M) == 0x31364d4e;
    case 0x32314d4e => assert DecodeN(code) == Some(NV12M); assert FourCC(NV12M) == 0x32314d4e;
    case _ =>
  }

  lemma DecodeNSound3(code: u32)
    ensures (code == 0x31324d4e) ==> DecodeN(code).Some? && FourCC(DecodeN(code).value) == code
  {
    match code
    case 0x31324d4e => assert DecodeN(code) == Some(NV21M); assert FourCC(NV21M) == 0x31324d4e;
    case _ =>
  }

  lemma DecodeNSound(code: u32)
    ensures DecodeN(code).Some? ==> FourCC(DecodeN(code).value) == code
  {
    DecodeNSound0(code);
    DecodeNSound1(code);
    DecodeNSound2(code);
    DecodeNSound3(code);
  }

  lemma DecodeASound0(code: u32)
    ensures (code == 0x56555941 || code == 0x34324241 || code == 0x34325241) ==> DecodeA(code).Some? && FourCC(DecodeA(code).value) == code
  {
    match code
    case 0x56555941 => assert DecodeA(code) == Some(AYUV32); assert FourCC(AYUV32) == 0x56555941;
    case 0x34324241 => assert DecodeA(code) == Some(RGBA32); assert FourCC(RGBA32) == 0x34324241;
    case 0x34325241 => assert DecodeA(code) == Some(ABGR32); assert FourCC(ABGR32) == 0x34325241;
    case _ =>
  }

  lemma DecodeASound1(code: u32)
    ensures (code == 0x32315241 || code == 0x32314241 || code == 0x35315241) ==> DecodeA(code).Some? && FourCC(DecodeA(code).value) == code
  {
    match code
    case 0x32315241 => assert DecodeA(code) == Some(ARGB444); assert FourCC(ARGB444) == 0x32315241;
    case 0x32314241 => assert DecodeA(code) == Some(ABGR444); assert FourCC(ABGR444) == 0x32314241;
    case 0x35315241 => assert DecodeA(code) == Some(ARGB555); assert FourCC(ARGB555) == 0x35315241;
    case _ =>
  }

  lemma DecodeASound2(code: u32)
    ensures (code == 0xb5315241 || code == 0x35314241) ==> DecodeA(code).Some? && FourCC(DecodeA(code).value) == code
  {
    match code
    case 0xb5315241 => assert DecodeA(code) == Some(ARGB555X); assert FourCC(ARGB555X) == 0xb5315241;
    case 0x35314241 => assert DecodeA(code) == Some(ABGR555); assert FourCC(ABGR555) == 0x35314241;
    case _ =>
  }

  lemma DecodeASound(code: u32)
    ensures DecodeA(code).Some? ==> FourCC(DecodeA(code).value) == code
  {
    DecodeASound0(code);
    DecodeASound1(code);
    DecodeASound2(code);
  }

  lemma DecodeXSound0(code: u32)
    ensures (code == 0x56555958 || code == 0x34324258 || code == 0x34325258) ==> DecodeX(code).Some? && FourCC(DecodeX(code).value) == code
  {
    match code
    case 0x56555958 => assert DecodeX(code) == Some(XYUV32); assert FourCC(XYUV32) == 0x56555958;
    case 0x34324258 => assert DecodeX(code) == Some(RGBX32); assert FourCC(RGBX32) == 0x34324258;
    case 0x34325258 => assert DecodeX(code) == Some(XBGR32); assert FourCC(XBGR32) == 0x34325258;
    case _ =>
  }

  lemma DecodeXSound1(code: u32)
    ensures (code == 0x32315258 || code == 0x32314258 || code == 0x35315258) ==> DecodeX(code).Some? && FourCC(DecodeX(code).value) == code
  {
    match code
    case 0x32315258 => assert DecodeX(code) == Some(XRGB444); assert FourCC(XRGB444) == 0x32315258;
    case 0x32314258 => assert DecodeX(code) == Some(XBGR444); assert FourCC(XBGR444) == 0x32314258;
    case 0x35315258 => assert DecodeX(code) == Some(XRGB555); assert FourCC(XRGB555) == 0x35315258;
    case _ =>
  }

  lemma DecodeXSound2(code: u32)
    ensures (code == 0xb5315258 || code == 0x35314258) ==> DecodeX(code).Some? && FourCC(DecodeX(code).value) == code
  {
    match code
    case 0xb5315258 => assert DecodeX(code) == Some(XRGB555X); assert FourCC(XRGB555X) == 0xb5315258;
    case 0x35314258 => assert DecodeX(code) == Some(XBGR555); assert FourCC(XBGR555) == 0x35314258;
    case _ =>
  }

  lemma DecodeXSound(code: u32)
    ensures DecodeX(code).Some? ==> FourCC(DecodeX(code).value) == code
  {
    DecodeXSound0(code);
    DecodeXSound1(code);
    DecodeXSound2(code);
  }

  lemma DecodeRSound0(code: u32)
    ensures (code == 0x34424752 || code == 0x34325852 || code == 0x34324152) ==> DecodeR(code).Some? && FourCC(DecodeR(code).value) == code
  {
    match code
    case 0x34424752 => assert DecodeR(code) == Some(RGB32); assert FourCC(RGB32) == 0x34424752;
    case 0x34325852 => assert DecodeR(code) == Some(BGRX32); assert FourCC(BGRX32) == 0x34325852;
    case 0x34324152 => assert DecodeR(code) == Some(BGRA32); assert FourCC(BGRA32) == 0x34324152;
    case _ =>
  }

  lemma DecodeRSound1(code: u32)
    ensures (code == 0x33424752 || code == 0x50424752 || code == 0x52424752) ==> DecodeR(code).Some? && FourCC(DecodeR(code).value) == code
  {
    match code
    case 0x33424752 => assert DecodeR(code) == Some(RGB24); assert FourCC(RGB24) == 0x33424752;
    case 0x50424752 => assert DecodeR(code) == Some(RGB565); assert FourCC(RGB565) == 0x50424752;
    case 0x52424752 => assert DecodeR(code) == Some(RGB565X); assert FourCC(RGB565X) == 0x52424752;
    case _ =>
  }

  lemma DecodeRSound2(code: u32)
    ensures (code == 0x34343452 || code == 0x32315852 || code == 0x32314152) ==> DecodeR(code).Some? && FourCC(DecodeR(code).value) == code
  {
    match code
    case 0x34343452 => assert DecodeR(code) == Some(RGB444); assert FourCC(RGB444) == 0x34343452;
    case 0x32315852 => assert DecodeR(code) == Some(RGBX444); assert FourCC(RGBX444) == 0x32315852;
    case 0x32314152 => assert DecodeR(code) == Some(RGBA444); assert FourCC(RGBA444) == 0x32314152;
    case _ =>
  }

  lemma DecodeRSound3(code: u32)
    ensures (code == 0x4f424752 || code == 0x51424752 || code == 0x35315852) ==> DecodeR(code).Some? && FourCC(DecodeR(code).value) == code
  {
    match code
    case 0x4f424752 => assert DecodeR(code) == Some(RGB555); assert FourCC(RGB555) == 0x4f424752;
    case 0x51424752 => assert DecodeR(code) == Some(RGB555X); assert FourCC(RGB555X) == 0x51424752;
    case 0x35315852 => assert DecodeR(code) == Some(RGBX555); assert FourCC(RGBX555) == 0x35315852;
    case _ =>
  }

  lemma DecodeRSound4(code: u32)
    ensures (code == 0x35314152 || code == 0x31424752 || code == 0x42474752) ==> DecodeR(code).Some? && FourCC(DecodeR(code).value) == code
  {
    match code
    case 0x35314152 => assert DecodeR(code) == Some(RGBA555); assert FourCC(RGBA555) == 0x35314152;
    case 0x31424752 => assert DecodeR(code) == Some(RGB332); assert FourCC(RGB332) == 0x31424752;
    case 0x42474752 => assert DecodeR(code) == Some(SRGGB8); assert FourCC(SRGGB8) == 0x42474752;
    case _ =>
  }

  lemma DecodeRSound5(code: u32)
    ensures (code == 0x30314752 || code == 0x32314752 || code == 0x36314752) ==> DecodeR(code).Some? && FourCC(DecodeR(code).value) == code
  {
    match code
    case 0x30314752 => assert DecodeR(code) == Some(SRGGB10); assert FourCC(SRGGB10) == 0x30314752;
    case 0x32314752 => assert DecodeR(code) == Some(SRGGB12); assert FourCC(SRGGB12) == 0x32314752;
    case 0x36314752 => assert DecodeR(code) == Some(SRGGB16); assert FourCC(SRGGB16) == 0x36314752;
    case _ =>
  }

  lemma DecodeRSound(code: u32)
    ensures DecodeR(code).Some? ==> FourCC(DecodeR(code).value) == code
  {
    DecodeRSound0(code);
    DecodeRSound1(code);
    DecodeRSound2(code);
    DecodeRSound3(code);
    DecodeRSound4(code);
    DecodeRSound5(code);
  }

  lemma DecodeBSound0(code: u32)
    ensures (code == 0x34325842 || code == 0x34324142 || code == 0x34524742) ==> DecodeB(code).Some? && FourCC(DecodeB(code).value) == code
  {
    match code
    case 0x34325842 => assert DecodeB(code) == Some(XRGB32); assert FourCC(XRGB32) == 0x34325842;
    case 0x34324142 => assert DecodeB(code) == Some(ARGB32); assert FourCC(ARGB32) == 0x34324142;
    case 0x34524742 => assert DecodeB(code) == Some(BGR32); assert FourCC(BGR32) == 0x34524742;
    case _ =>
  }

  lemma DecodeBSound1(code: u32)
    ensures (code == 0x33524742 || code == 0x32315842 || code == 0x35315842) ==> DecodeB(code).Some? && FourCC(DecodeB(code).value) == code
  {
    match code
    case 0x33524742 => assert DecodeB(code) == Some(BGR24); assert FourCC(BGR24) == 0x33524742;
    case 0x32315842 => assert DecodeB(code) == Some(BGRX444); assert FourCC(BGRX444) == 0x32315842;
    case 0x35315842 => assert DecodeB(code) == Some(BGRX555); assert FourCC(BGRX555) == 0x35315842;
    case _ =>
  }

  lemma DecodeBSound2(code: u32)
    ensures (code == 0x35314142 || code == 0x48524742 || code == 0x31384142) ==> DecodeB(code).Some? && FourCC(DecodeB(code).value) == code
  {
    match code
    case 0x35314142 => assert DecodeB(code) == Some(BGRA555); assert FourCC(BGRA555) == 0x35314142;
    case 0x48524742 => assert DecodeB(code) == Some(BGR666); assert FourCC(BGR666) == 0x48524742;
    case 0x31384142 => assert DecodeB(code) == Some(SBGGR8); assert FourCC(SBGGR8) == 0x31384142;
    case _ =>
  }

  lemma DecodeBSound3(code: u32)
    ensures (code == 0x30314742 || code == 0x30314142 || code == 0x32314742) ==> DecodeB(code).Some? && FourCC(DecodeB(code).value) == code
  {
    match code
    case 0x30314742 => assert DecodeB(code) == Some(SBGGR10); assert FourCC(SBGGR10) == 0x30314742;
    case 0x30314142 => assert DecodeB(code) == Some(SGRBG10); assert FourCC(SGRBG10) == 0x30314142;
    case 0x32314742 => assert DecodeB(code) == Some(SBGGR12); assert FourCC(SBGGR12) == 0x32314742;
    case _ =>
  }

  lemma DecodeBSound4(code: u32)
    ensures (code == 0x32314142 || code == 0x32525942) ==> DecodeB(code).Some? && FourCC(DecodeB(code).value) == code
  {
    match code
    case 0x32314142 => assert DecodeB(code) == Some(SGRBG12); assert FourCC(SGRBG12) == 0x32314142;
    case 0x32525942 => assert DecodeB(code) == Some(SBGGR16); assert FourCC(SBGGR16) == 0x32525942;
    case _ =>
  }

  lemma DecodeBSound(code: u32)
    ensures DecodeB(code).Some? ==> FourCC(DecodeB(code).value) == code
  {
    DecodeBSound0(code);
    DecodeBSound1(code);
    DecodeBSound2(code);
    DecodeBSound3(code);
    DecodeBSound4(code);
  }

  lemma DecodeGSound0(code: u32)
    ensures (code == 0x32314147 || code == 0x47524247 || code == 0x47425247) ==> DecodeG(code).Some? && FourCC(DecodeG(code).value) == code
  {
    match code
    case 0x32314147 => assert DecodeG(code) == Some(BGRA444); assert FourCC(BGRA444) == 0x32314147;
    case 0x47524247 => assert DecodeG(code) == Some(SGBRG8); assert FourCC(SGBRG8) == 0x47524247;
    case 0x47425247 => assert DecodeG(code) == Some(SGRBG8); assert FourCC(SGRBG8) == 0x47425247;
    case _ =>
  }

  lemma DecodeGSound1(code: u32)
    ensures (code == 0x30314247 || code == 0x32314247 || code == 0x36314247) ==> DecodeG(code).Some? && FourCC(DecodeG(code).value) == code
  {
    match code
    case 0x30314247 => assert DecodeG(code) == Some(SGBRG10); assert FourCC(SGBRG10) == 0x30314247;
    case 0x32314247 => assert DecodeG(code) == Some(SGBRG12); assert FourCC(SGBRG12) == 0x32314247;
    case 0x36314247 => assert DecodeG(code) == Some(SGBRG16); assert FourCC(SGBRG16) == 0x36314247;
    case _ =>
  }

  lemma DecodeGSound2(code: u32)
    ensures (code == 0x36315247 || code == 0x59455247) ==> DecodeG(code).Some? && FourCC(DecodeG(code).value) == code
  {
    match code
    case 0x36315247 => assert DecodeG(code) == Some(SGRBG16); assert FourCC(SGRBG16) == 0x36315247;
    case 0x59455247 => assert DecodeG(code) == Some(GREY); assert FourCC(GREY) == 0x59455247;
    case _ =>
  }

  lemma DecodeGSound(code: u32)
    ensures DecodeG(code).Some? ==> FourCC(DecodeG(code).value) == code
  {
    DecodeGSound0(code);
    DecodeGSound1(code);
    DecodeGSound2(code);
  }

  lemma DecodeHSound(code: u32)
    ensures DecodeH(code).Some? ==> FourCC(DecodeH(code).value) == code
  {
    match code
    case 0x33565348 => assert DecodeH(code) == Some(HSV24); assert FourCC(HSV24) == 0x33565348;
    case 0x34565348 => assert DecodeH(code) == Some(HSV32); assert FourCC(HSV32) == 0x34565348;
    case _ => assert DecodeH(code) == None;
  }

  lemma DecodeZSound(code: u32)
    ensures DecodeZ(code).Some? ==> FourCC(DecodeZ(code).value) == code
  {
    match code
    case 0x2036315a => assert DecodeZ(code) == Some(Z16); assert FourCC(Z16) == 0x2036315a;
    case _ => assert DecodeZ(code) == None;
  }

  /** A code that has a label is the code of that label's format. */
  lemma DecodeSound(code: u32)
    ensures Decode(code).Some? ==> FourCC(Decode(code).value) == code
  {
    match code % 0x100
    case 0x59 => DecodeYSound(code);
    case 0x55 => DecodeUSound(code);
    case 0x56 => DecodeVSound(code);
    case 0x34 => Decode4Sound(code);
    case 0x4e => DecodeNSound(code);
    case 0x41 => DecodeASound(code);
    case 0x58 => DecodeXSound(code);
    case 0x52 => DecodeRSound(code);
    case 0x42 => DecodeBSound(code);
    case 0x47 => DecodeGSound(code);
    case 0x48 => DecodeHSound(code);
    case 0x5a => DecodeZSound(code);
    case _ =>
  }

  lemma DecodeFourCCY0(p: PixelFormat)
    ensures (p in {YUYV, YVYU, YVU420, YUV420, YVU420M, YUV420M, YVU422M}) ==> Decode(FourCC(p)) == Some(p)
  {
    match p
    case YUYV => assert Decode(0x56595559) == Some(YUYV);
    case YVYU => assert Decode(0x55595659) == Some(YVYU);
    case YVU420 => assert Decode(0x32315659) == Some(YVU420);
    case YUV420 => assert Decode(0x32315559) == Some(YUV420);
    case YVU420M => assert Decode(0x31324d59) == Some(YVU420M);
    case YUV420M => assert Decode(0x32314d59) == Some(YUV420M);
    case YVU422M => assert Decode(0x31364d59) == Some(YVU422M);
    case _ =>
  }

  lemma DecodeFourCCY1(p: PixelFormat)
    ensures (p in {YUV422M, YVU444M, YUV444M, YUV444, YUV555, YUV565, YUV32}) ==> Decode(FourCC(p)) == Some(p)
  {
    match p
    case YUV422M => assert Decode(0x36314d59) == Some(YUV422M);
    case YVU444M => assert Decode(0x32344d59) == Some(YVU444M);
    case YUV444M => assert Decode(0x34324d59) == Some(YUV444M);
    case YUV444 => assert Decode(0x34343459) == Some(YUV444);
    case YUV555 => assert Decode(0x4f565559) == Some(YUV555);
    case YUV565 => assert Decode(0x50565559) == Some(YUV565);
    case YUV32 => assert Decode(0x34565559) == Some(YUV32);
    case _ =>
  }

  lemma DecodeFourCCY2(p: PixelFormat)
    ensures (p in {Y10, Y12, Y16, Y16_BE}) ==> Decode(FourCC(p)) == Some(p)
  {
    match p
    case Y10 => assert Decode(0x20303159) == Some(Y10);
    case Y12 => assert Decode(0x20323159) == Some(Y12);
    case Y16 => assert Decode(0x20363159) == Some(Y16);
    case Y16_BE => assert Decode(0xa0363159) == Some(Y16_BE);
    case _ =>
  }

  lemma DecodeFourCCU(p: PixelFormat)
    ensures (p in {UYVY}) ==> Decode(FourCC(p)) == Some(p)
  {
    match p
    case UYVY => assert Decode(0x59565955) == Some(UYVY);
    case _ =>
  }

  lemma DecodeFourCCV(p: PixelFormat)
    ensures (p in {VYUY, VUYA32, VUYX32}) ==> Decode(FourCC(p)) == Some(p)
  {
    match p
    case VYUY => assert Decode(0x59555956) == Some(VYUY);
    case VUYA32 => assert Decode(0x41595556) == Some(VUYA32);
    case VUYX32 => assert Decode(0x58595556) == Some(VUYX32);
    case _ =>
  }

  lemma DecodeFourCC4(p: PixelFormat)
    ensures (p in {YUV422P}) ==> Decode(FourCC(p)) == Some(p)
  {
    match p
    case YUV422P => assert Decode(0x50323234) == Some(YUV422P);
    case _ =>
  }

  lemma DecodeFourCCN0(p: PixelFormat)
    ensures (p in {NV12, NV21, NV16, NV61, NV24, NV42, NV16M}) ==> Decode(FourCC(p)) == Some(p)
  {
    match p
    case NV12 => assert Decode(0x3231564e) == Some(NV12);
    case NV21 => assert Decode(0x3132564e) == Some(NV21);
    case NV16 => assert Decode(0x3631564e) == Some(NV16);
    case NV61 => assert Decode(0x3136564e) == Some(NV61);
    case NV24 => assert Decode(0x3432564e) == Some(NV24);
    case NV42 => assert Decode(0x3234564e) == Some(NV42);
    case NV16M => assert Decode(0x36314d4e) == Some(NV16M);
    case _ =>
  }

  lemma DecodeFourCCN1(p: PixelFormat)
    ensures (p in {NV61M, NV12M, NV21M}) ==> Decode(FourCC(p)) == Some(p)
  {
    match p
    case NV61M => assert Decode(0x31364d4e) == Some(NV61M);
    case NV12M => assert Decode(0x32314d4e) == Some(NV12M);
    case NV21M => assert Decode(0x31324d4e) == Some(NV21M);
    case _ =>
  }

  lemma DecodeFourCCA0(p: PixelFormat)
    ensures (p in {AYUV32, RGBA32, ABGR32, ARGB444, ABGR444, ARGB555, ARGB555X}) ==> Decode(FourCC(p)) == Some(p)
  {
    match p
    case AYUV32 => assert Decode(0x56555941) == Some(AYUV32);
    case RGBA32 => assert Decode(0x34324241) == Some(RGBA32);
    case ABGR32 => assert Decode(0x34325241) == Some(ABGR32);
    case ARGB444 => assert Decode(0x32315241) == Some(ARGB444);
    case ABGR444 => assert Decode(0x32314241) == Some(ABGR444);
    case ARGB555 => assert Decode(0x35315241) == Some(ARGB555);
    case ARGB555X => assert Decode(0xb5315241) == Some(ARGB555X);
    case _ =>
  }

  lemma DecodeFourCCA1(p: PixelFormat)
    ensures (p in {ABGR555}) ==> Decode(FourCC(p)) == Some(p)
  {
    match p
    case ABGR555 => assert Decode(0x35314241) == Some(ABGR555);
    case _ =>
  }

  lemma DecodeFourCCX0(p: PixelFormat)
    ensures (p in {XYUV32, RGBX32, XBGR32, XRGB444, XBGR444, XRGB555, XRGB555X}) ==> Decode(FourCC(p)) == Some(p)
  {
    match p
    case XYUV32 => assert Decode(0x56555958) == Some(XYUV32);
    case RGBX32 => assert Decode(0x34324258) == Some(RGBX32);
    case XBGR32 => assert Decode(0x34325258) == Some(XBGR32);
    case XRGB444 => assert Decode(0x32315258) == Some(XRGB444);
    case XBGR444 => assert Decode(0x32314258) == Some(XBGR444);
    case XRGB555 => assert Decode(0x35315258) == Some(XRGB555);
    case XRGB555X => assert Decode(0xb5315258) == Some(XRGB555X);
    case _ =>
  }

  lemma DecodeFourCCX1(p: PixelFormat)
    ensures (p in {XBGR555}) ==> Decode(FourCC(p)) == Some(p)
  {
    match p
    case XBGR555 => assert Decode(0x35314258) == Some(XBGR555);
    case _ =>
  }

  lemma DecodeFourCCR0(p: PixelFormat)
    ensures (p in {RGB32, BGRX32, BGRA32, RGB24, RGB565, RGB565X, RGB444}) ==> Decode(FourCC(p)) == Some(p)
  {
    match p
    case RGB32 => assert Decode(0x34424752) == Some(RGB32);
    case BGRX32 => assert Decode(0x34325852) == Some(BGRX32);
    case BGRA32 => assert Decode(0x34324152) == Some(BGRA32);
    case RGB24 => assert Decode(0x33424752) == Some(RGB24);
    case RGB565 => assert Decode(0x50424752) == Some(RGB565);
    case RGB565X => assert Decode(0x52424752) == Some(RGB565X);
    case RGB444 => assert Decode(0x34343452) == Some(RGB444);
    case _ =>
  }

  lemma DecodeFourCCR1(p: PixelFormat)
    ensures (p in {RGBX444, RGBA444, RGB555, RGB555X, RGBX555, RGBA555, RGB332}) ==> Decode(FourCC(p)) == Some(p)
  {
    match p
    case RGBX444 => assert Decode(0x32315852) == Some(RGBX444);
    case RGBA444 => assert Decode(0x32314152) == Some(RGBA444);
    case RGB555 => assert Decode(0x4f424752) == Some(RGB555);
    case RGB555X => assert Decode(0x51424752) == Some(RGB555X);
    case RGBX555 => assert Decode(0x35315852) == Some(RGBX555);
    case RGBA555 => assert Decode(0x35314152) == Some(RGBA555);
    case RGB332 => assert Decode(0x31424752) == Some(RGB332);
    case _ =>
  }

  lemma DecodeFourCCR2(p: PixelFormat)
    ensures (p in {SRGGB8, SRGGB10, SRGGB12, SRGGB16}) ==> Decode(FourCC(p)) == Some(p)
  {
    match p
    case SRGGB8 => assert Decode(0x42474752) == Some(SRGGB8);
    case SRGGB10 => assert Decode(0x30314752) == Some(SRGGB10);
    case SRGGB12 => assert Decode(0x32314752) == Some(SRGGB12);
    case SRGGB16 => assert Decode(0x36314752) == Some(SRGGB16);
    case _ =>
  }

  lemma DecodeFourCCB0(p: PixelFormat)
    ensures (p in {XRGB32, ARGB32, BGR32, BGR24, BGRX444, BGRX555, BGRA555}) ==> Decode(FourCC(p)) == Some(p)
  {
    match p
    case XRGB32 => assert Decode(0x34325842) == Some(XRGB32);
    case ARGB32 => assert Decode(0x34324142) == Some(ARGB32);
    case BGR32 => assert Decode(0x34524742) == Some(BGR32);
    case BGR24 => assert Decode(0x33524742) == Some(BGR24);
    case BGRX444 => assert Decode(0x32315842) == Some(BGRX444);
    case BGRX555 => assert Decode(0x35315842) == Some(BGRX555);
    case BGRA555 => assert Decode(0x35314142) == Some(BGRA555);
    case _ =>
  }

  lemma DecodeFourCCB1(p: PixelFormat)
    ensures (p in {BGR666, SBGGR8, SBGGR10, SGRBG10, SBGGR12, SGRBG12, SBGGR16}) ==> Decode(FourCC(p)) == Some(p)
  {
    match p
    case BGR666 => assert Decode(0x48524742) == Some(BGR666);
    case SBGGR8 => assert Decode(0x31384142) == Some(SBGGR8);
    case SBGGR10 => assert Decode(0x30314742) == Some(SBGGR10);
    case SGRBG10 => assert Decode(0x30314142) == Some(SGRBG10);
    case SBGGR12 => assert Decode(0x32314742) == Some(SBGGR12);
    case SGRBG12 => assert Decode(0x32314142) == Some(SGRBG12);
    case SBGGR16 => assert Decode(0x32525942) == Some(SBGGR16);
    case _ =>
  }

  lemma DecodeFourCCG0(p: PixelFormat)
    ensures (p in {BGRA444, SGBRG8, SGRBG8, SGBRG10, SGBRG12, SGBRG16, SGRBG16}) ==> Decode(FourCC(p)) == Some(p)
  {
    match p
    case BGRA444 => assert Decode(0x32314147) == Some(BGRA444);
    case SGBRG8 => assert Decode(0x47524247) == Some(SGBRG8);
    case SGRBG8 => assert Decode(0x47425247) == Some(SGRBG8);
    case SGBRG10 => assert Decode(0x30314247) == Some(SGBRG10);
    case SGBRG12 => assert Decode(0x32314247) == Some(SGBRG12);
    case SGBRG16 => assert Decode(0x36314247) == Some(SGBRG16);
    case SGRBG16 => assert Decode(0x36315247) == Some(SGRBG16);
    case _ =>
  }

  lemma DecodeFourCCG1(p: PixelFormat)
    ensures (p in {GREY}) ==> Decode(FourCC(p)) == Some(p)
  {
    match p
    case GREY => assert Decode(0x59455247) == Some(GREY);
    case _ =>
  }

  lemma DecodeFourCCH(p: PixelFormat)
    ensures (p in {HSV24, HSV32}) ==> Decode(FourCC(p)) == Some(p)
  {
    match p
    case HSV24 => assert Decode(0x33565348) == Some(HSV24);
    case HSV32 => assert Decode(0x34565348) == Some(HSV32);
    case _ =>
  }

  lemma DecodeFourCCZ(p: PixelFormat)
    ensures (p in {Z16}) ==> Decode(FourCC(p)) == Some(p)
  {
    match p
    case Z16 => assert Decode(0x2036315a) == Some(Z16);
    case _ =>
  }

  /** Every format is recognised by its own code. */
  lemma DecodeFourCC(p: PixelFormat)
    ensures Decode(FourCC(p)) == Some(p)
  {
    DecodeFourCCY0(p);
    DecodeFourCCY1(p);
    DecodeFourCCY2(p);
    DecodeFourCCU(p);
    DecodeFourCCV(p);
    DecodeFourCC4(p);
    DecodeFourCCN0(p);
    DecodeFourCCN1(p);
    DecodeFourCCA0(p);
    DecodeFourCCA1(p);
    DecodeFourCCX0(p);
    DecodeFourCCX1(p);
    DecodeFourCCR0(p);
    DecodeFourCCR1(p);
    DecodeFourCCR2(p);
    DecodeFourCCB0(p);
    DecodeFourCCB1(p);
    DecodeFourCCG0(p);
    DecodeFourCCG1(p);
    DecodeFourCCH(p);
    DecodeFourCCZ(p);
  }

}

/** The `formats[]` table of src/capture.cpp:19-113 and its agreement with
    the switch labels. */
module FormatTable {
  import opened Wrappers
  import opened Uapi
  import opened PixelFormats
  import opened FormatCodes

  /** The `formats[]` table in its source order, without the terminator. */
  const Formats: seq<PixelFormat> :=
    [YUYV, YVYU, UYVY, VYUY, YUV422P, YVU420, YUV420, NV12] +
    [NV21, NV16, NV61, NV24, NV42, NV16M, NV61M, YVU420M] +
    [YUV420M, YVU422M, YUV422M, YVU444M, YUV444M, NV12M, NV21M, YUV444] +
    [YUV555, YUV565, YUV32, AYUV32, XYUV32, VUYA32, VUYX32, RGB32] +
    [XRGB32, ARGB32, RGBX32, RGBA32, BGR32, XBGR32, ABGR32, BGRX32] +
    [BGRA32, RGB24, BGR24, RGB565, RGB565X, RGB444, XRGB444, ARGB444] +
    [XBGR444, ABGR444, RGBX444, RGBA444, BGRX444, BGRA444, RGB555, XRGB555] +
    [ARGB555, RGB555X, XRGB555X, ARGB555X, RGBX555, RGBA555, XBGR555, ABGR555] +
    [BGRX555, BGRA555, RGB332, BGR666, SBGGR8, SGBRG8, SGRBG8, SRGGB8] +
    [SBGGR10, SGBRG10, SGRBG10, SRGGB10, SBGGR12, SGBRG12, SGRBG12, SRGGB12] +
    [SBGGR16, SGBRG16, SGRBG16, SRGGB16, HSV24, HSV32, GREY, Y10] +
    [Y12, Y16, Y16_BE, Z16]

  /** The codes of a list of formats, in order. */
  function Codes(s: seq<PixelFormat>): (r: seq<u32>)
    ensures |r| == |s|
    ensures forall i :: 0 <= i < |s| ==> r[i] == FourCC(s[i])
  {
    if s == [] then [] else [FourCC(s[0])] + Codes(s[1..])
  }

  /** `formats[]` as the program holds it: the fourcc codes followed by the 0 terminator. */
  function FormatTable(): seq<u32> { Codes(Formats) + [0] }

  /** The table holds the codes of `Formats` in order, none of them 0, and
      ends with the 0 terminator. */
  lemma TableShape()
    ensures |FormatTable()| == |Formats| + 1 && FormatTable()[|Formats|] == 0
    ensures forall j :: 0 <= j < |Formats| ==> FormatTable()[j] != 0
    ensures forall j :: 0 <= j < |Formats| ==> FormatTable()[j] == FourCC(Formats[j])
  {
  }

  /** A code the table lists before its terminator. */
  predicate Listed(code: u32) {
    exists i :: 0 <= i < |Formats| && FourCC(Formats[i]) == code
  }

  /** A code is listed exactly when it occurs in the table before the
      terminator. */
  lemma ListedInTable(code: u32)
    ensures Listed(code) <==> code in FormatTable()[..|Formats|]
  {
    TableShape();
    var t := FormatTable();
    if Listed(code) {
      var i :| 0 <= i < |Formats| && FourCC(Formats[i]) == code;
      assert t[..|Formats|][i] == code;
    }
    if code in t[..|Formats|] {
      var i :| 0 <= i < |Formats| && t[..|Formats|][i] == code;
      assert FourCC(Formats[i]) == code;
    }
  }

  /** The position of a format in the table. */
  function Rank(p: PixelFormat): nat
  {
    match p
    case YUYV => 0
    case YVYU => 1
    case UYVY => 2
    case VYUY => 3
    case YUV422P => 4
    case YVU420 => 5
    case YUV420 => 6
    case NV12 => 7
    case NV21 => 8
    case NV16 => 9
    case NV61 => 10
    case NV24 => 11
    case NV42 => 12
    case NV16M => 13
    case NV61M => 14
    case YVU420M => 15
    case YUV420M => 16
    case YVU422M => 17
    case YUV422M => 18
    case YVU444M => 19
    case YUV444M => 20
    case NV12M => 21
    case NV21M => 22
    case YUV444 => 23
    case YUV555 => 24
    case YUV565 => 25
    case YUV32 => 26
    case AYUV32 => 27
    case XYUV32 => 28
    case VUYA32 => 29
    case VUYX32 => 30
    case RGB32 => 31
    case XRGB32 => 32
    case ARGB32 => 33
    case RGBX32 => 34
    case RGBA32 => 35
    case BGR32 => 36
    case XBGR32 => 37
    case ABGR32 => 38
    case BGRX32 => 39
    case BGRA32 => 40
    case RGB24 => 41
    case BGR24 => 42
    case RGB565 => 43
    case RGB565X => 44
    case RGB444 => 45
    case XRGB444 => 46
    case ARGB444 => 47
    case XBGR444 => 48
    case ABGR444 => 49
    case RGBX444 => 50
    case RGBA444 => 51
    case BGRX444 => 52
    case BGRA444 => 53
    case RGB555 => 54
    case XRGB555 => 55
    case ARGB555 => 56
    case RGB555X => 57
    case XRGB555X => 58
    case ARGB555X => 59
    case RGBX555 => 60
    case RGBA555 => 61
    case XBGR555 => 62
    case ABGR555 => 63
    case BGRX555 => 64
    case BGRA555 => 65
    case RGB332 => 66
    case BGR666 => 67
    case SBGGR8 => 68
    case SGBRG8 => 69
    case SGRBG8 => 70
    case SRGGB8 => 71
    case SBGGR10 => 72
    case SGBRG10 => 73
    case SGRBG10 => 74
    case SRGGB10 => 75
    case SBGGR12 => 76
    case SGBRG12 => 77
    case SGRBG12 => 78
    case SRGGB12 => 79
    case SBGGR16 => 80
    case SGBRG16 => 81
    case SGRBG16 => 82
    case SRGGB16 => 83
    case HSV24 => 84
    case HSV32 => 85
    case GREY => 86
    case Y10 => 87
    case Y12 => 88
    case Y16 => 89
    case Y16_BE => 90
    case Z16 => 91
  }

  lemma RankInFormats0(p: PixelFormat)
    ensures (p in {YUYV, YVYU, UYVY, VYUY, YUV422P, YVU420, YUV420, NV12}) ==> Rank(p) < |Formats| && Formats[Rank(p)] == p
  {
    match p
    case YUYV => assert Formats[0] == YUYV;
    case YVYU => assert Formats[1] == YVYU;
    case UYVY => assert Formats[2] == UYVY;
    case VYUY => assert Formats[3] == VYUY;
    case YUV422P => assert Formats[4] == YUV422P;
    case YVU420 => assert Formats[5] == YVU420;
    case YUV420 => assert Formats[6] == YUV420;
    case NV12 => assert Formats[7] == NV12;
    case _ =>
  }

  lemma RankInFormats1(p: PixelFormat)
    ensures (p in {NV21, NV16, NV61, NV24, NV42, NV16M, NV61M, YVU420M}) ==> Rank(p) < |Formats| && Formats[Rank(p)] == p
  {
    match p
    case NV21 => assert Formats[8] == NV21;
    case NV16 => assert Formats[9] == NV16;
    case NV61 => assert Formats[10] == NV61;
    case NV24 => assert Formats[11] == NV24;
    case NV42 => assert Formats[12] == NV42;
    case NV16M => assert Formats[13] == NV16M;
    case NV61M => assert Formats[14] == NV61M;
    case YVU420M => assert Formats[15] == YVU420M;
    case _ =>
  }

  lemma RankInFormats2(p: PixelFormat)
    ensures (p in {YUV420M, YVU422M, YUV422M, YVU444M, YUV444M, NV12M, NV21M, YUV444}) ==> Rank(p) < |Formats| && Formats[Rank(p)] == p
  {
    match p
    case YUV420M => assert Formats[16] == YUV420M;
    case YVU422M => assert Formats[17] == YVU422M;
    case YUV422M => assert Formats[18] == YUV422M;
    case YVU444M => assert Formats[19] == YVU444M;
    case YUV444M => assert Formats[20] == YUV444M;
    case NV12M => assert Formats[21] == NV12M;
    case NV21M => assert Formats[22] == NV21M;
    case YUV444 => assert Formats[23] == YUV444;
    case _ =>
  }

  lemma RankInFormats3(p: PixelFormat)
    ensures (p in {YUV555, YUV565, YUV32, AYUV32, XYUV32, VUYA32, VUYX32, RGB32}) ==> Rank(p) < |Formats| && Formats[Rank(p)] == p
  {
    match p
    case YUV555 => assert Formats[24] == YUV555;
    case YUV565 => assert Formats[25] == YUV565;
    case YUV32 => assert Formats[26] == YUV32;
    case AYUV32 => assert Formats[27] == AYUV32;
    case XYUV32 => assert Formats[28] == XYUV32;
    case VUYA32 => assert Formats[29] == VUYA32;
    case VUYX32 => assert Formats[30] == VUYX32;
    case RGB32 => assert Formats[31] == RGB32;
    case _ =>
  }

  lemma RankInFormats4(p: PixelFormat)
    ensures (p in {XRGB32, ARGB32, RGBX32, RGBA32, BGR32, XBGR32, ABGR32, BGRX32}) ==> Rank(p) < |Formats| && Formats[Rank(p)] == p
  {
    match p
    case XRGB32 => assert Formats[32] == XRGB32;
    case ARGB32 => assert Formats[33] == ARGB32;
    case RGBX32 => assert Formats[34] == RGBX32;
    case RGBA32 => assert Formats[35] == RGBA32;
    case BGR32 => assert Formats[36] == BGR32;
    case XBGR32 => assert Formats[37] == XBGR32;
    case ABGR32 => assert Formats[38] == ABGR32;
    case BGRX32 => assert Formats[39] == BGRX32;
    case _ =>
  }

  lemma RankInFormats5(p: PixelFormat)
    ensures (p in {BGRA32, RGB24, BGR24, RGB565, RGB565X, RGB444, XRGB444, ARGB444}) ==> Rank(p) < |Formats| && Formats[Rank(p)] == p
  {
    match p
    case BGRA32 => assert Formats[40] == BGRA32;
    case RGB24 => assert Formats[41] == RGB24;
    case BGR24 => assert Formats[42] == BGR24;
    case RGB565 => assert Formats[43] == RGB565;
    case RGB565X => assert Formats[44] == RGB565X;
    case RGB444 => assert Formats[45] == RGB444;
    case XRGB444 => assert Formats[46] == XRGB444;
    case ARGB444 => assert Formats[47] == ARGB444;
    case _ =>
  }

  lemma RankInFormats6(p: PixelFormat)
    ensures (p in {XBGR444, ABGR444, RGBX444, RGBA444, BGRX444, BGRA444, RGB555, XRGB555}) ==> Rank(p) < |Formats| && Formats[Rank(p)] == p
  {
    match p
    case XBGR444 => assert Formats[48] == XBGR444;
    case ABGR444 => assert Formats[49] == ABGR444;
    case RGBX444 => assert Formats[50] == RGBX444;
    case RGBA444 => assert Formats[51] == RGBA444;
    case BGRX444 => assert Formats[52] == BGRX444;
    case BGRA444 => assert Formats[53] == BGRA444;
    case RGB555 => assert Formats[54] == RGB555;
    case XRGB555 => assert Formats[55] == XRGB555;
    case _ =>
  }

  lemma RankInFormats7(p: PixelFormat)
    ensures (p in {ARGB555, RGB555X, XRGB555X, ARGB555X, RGBX555, RGBA555, XBGR555, ABGR555}) ==> Rank(p) < |Formats| && Formats[Rank(p)] == p
  {
    match p
    case ARGB555 => assert Formats[56] == ARGB555;
    case RGB555X => assert Formats[57] == RGB555X;
    case XRGB555X => assert Formats[58] == XRGB555X;
    case ARGB555X => assert Formats[59] == ARGB555X;
    case RGBX555 => assert Formats[60] == RGBX555;
    case RGBA555 => assert Formats[61] == RGBA555;
    case XBGR555 => assert Formats[62] == XBGR555;
    case ABGR555 => assert Formats[63] == ABGR555;
    case _ =>
  }

  lemma RankInFormats8(p: PixelFormat)
    ensures (p in {BGRX555, BGRA555, RGB332, BGR666, SBGGR8, SGBRG8, SGRBG8, SRGGB8}) ==> Rank(p) < |Formats| && Formats[Rank(p)] == p
  {
    match p
    case BGRX555 => assert Formats[64] == BGRX555;
    case BGRA555 => assert Formats[65] == BGRA555;
    case RGB332 => assert Formats[66] == RGB332;
    case BGR666 => assert Formats[67] == BGR666;
    case SBGGR8 => assert Formats[68] == SBGGR8;
    case SGBRG8 => assert Formats[69] == SGBRG8;
    case SGRBG8 => assert Formats[70] == SGRBG8;
    case SRGGB8 => assert Formats[71] == SRGGB8;
    case _ =>
  }

  lemma RankInFormats9(p: PixelFormat)
    ensures (p in {SBGGR10, SGBRG10, SGRBG10, SRGGB10, SBGGR12, SGBRG12, SGRBG12, SRGGB12}) ==> Rank(p) < |Formats| && Formats[Rank(p)] == p
  {
    match p
    case SBGGR10 => assert Formats[72] == SBGGR10;
    case SGBRG10 => assert Formats[73] == SGBRG10;
    case SGRBG10 => assert Formats[74] == SGRBG10;
    case SRGGB10 => assert Formats[75] == SRGGB10;
    case SBGGR12 => assert Formats[76] == SBGGR12;
    case SGBRG12 => assert Formats[77] == SGBRG12;
    case SGRBG12 => assert Formats[78] == SGRBG12;
    case SRGGB12 => assert Formats[79] == SRGGB12;
    case _ =>
  }

  lemma RankInFormats10(p: PixelFormat)
    ensures (p in {SBGGR16, SGBRG16, SGRBG16, SRGGB16, HSV24, HSV32, GREY, Y10}) ==> Rank(p) < |Formats| && Formats[Rank(p)] == p
  {
    match p
    case SBGGR16 => assert Formats[80] == SBGGR16;
    case SGBRG16 => assert Formats[81] == SGBRG16;
    case SGRBG16 => assert Formats[82] == SGRBG16;
    case SRGGB16 => assert Formats[83] == SRGGB16;
    case HSV24 => assert Formats[84] == HSV24;
    case HSV32 => assert Formats[85] == HSV32;
    case GREY => assert Formats[86] == GREY;
    case Y10 => assert Formats[87] == Y10;
    case _ =>
  }

  lemma RankInFormats11(p: PixelFormat)
    ensures (p in {Y12, Y16, Y16_BE, Z16}) ==> Rank(p) < |Formats| && Formats[Rank(p)] == p
  {
    match p
    case Y12 => assert Formats[88] == Y12;
    case Y16 => assert Formats[89] == Y16;
    case Y16_BE => assert Formats[90] == Y16_BE;
    case Z16 => assert Formats[91] == Z16;
    case _ =>
  }

  /** Every format has its place in the table. */
  lemma RankInFormats(p: PixelFormat)
    ensures Rank(p) < |Formats| && Formats[Rank(p)] == p
  {
    RankInFormats0(p);
    RankInFormats1(p);
    RankInFormats2(p);
    RankInFormats3(p);
    RankInFormats4(p);
    RankInFormats5(p);
    RankInFormats6(p);
    RankInFormats7(p);
    RankInFormats8(p);
    RankInFormats9(p);
    RankInFormats10(p);
    RankInFormats11(p);
  }

  /** The switch labels and the table agree: a code has a label exactly when
      the table lists it. */
  lemma DecodeListed(code: u32)
    ensures Decode(code).Some? <==> Listed(code)
  {
    if Decode(code).Some? {
      DecodeSound(code);
      var k := Rank(Decode(code).value);
      RankInFormats(Decode(code).value);
      assert FourCC(Formats[k]) == code;
    }
    if Listed(code) {
      var i :| 0 <= i < |Formats| && FourCC(Formats[i]) == code;
      DecodeFourCC(Formats[i]);
    }
  }
}
