/** The colour-attribute resolution of `setV4LFormat`
    (src/capture.cpp:549-602) as a transformation of format records.  The
    method of the capture window that performs it step by step is
    `Capture.CaptureWin.SetV4LFormat`; this module is its specification. */
module ColorResolve {
  import opened Wrappers
  import opened Uapi
  import opened PixelFormats
  import opened FormatCodes
  import opened FormatTable
  import opened Classifier

  /** The fields of a V4L2 single-planar format the viewer reads or writes.
      `encoding` is the union of `ycbcr_enc` and `hsv_enc`. */
  datatype Format = Format(
    pixelFormat: u32, width: u32, frameHeight: u32, field: u32,
    colorspace: u32, xferFunc: u32, encoding: u32, quantization: u32)

  /** The five user overrides; NO_OVERRIDE in a field leaves the device's value. */
  datatype Overrides = Overrides(
    colorspace: u32, ycbcrEnc: u32, hsvEnc: u32, xferFunc: u32, quantization: u32)

  const NoOverrides := Overrides(NO_OVERRIDE, NO_OVERRIDE, NO_OVERRIDE, NO_OVERRIDE, NO_OVERRIDE)

  /** The encoding after the override step: the HSV override for an HSV
      format that has one, otherwise the Y'CbCr override for any non-RGB
      format (HSV included), otherwise the device's value. */
  function OverriddenEncoding(enc: u32, o: Overrides, flags: FormatFlags): u32
  {
    if flags.isHsv && o.hsvEnc != NO_OVERRIDE then o.hsvEnc
    else if !flags.isRgb && o.ycbcrEnc != NO_OVERRIDE then o.ycbcrEnc
    else enc
  }

  /** The override step (src/capture.cpp:554-563); the caller's format ends
      up holding this record. */
  function ApplyOverrides(f: Format, o: Overrides, flags: FormatFlags): Format
  {
    var f1 := if o.colorspace != NO_OVERRIDE then f.(colorspace := o.colorspace) else f;
    var f2 := f1.(encoding := OverriddenEncoding(f1.encoding, o, flags));
    var f3 := if o.xferFunc != NO_OVERRIDE then f2.(xferFunc := o.xferFunc) else f2;
    if o.quantization != NO_OVERRIDE then f3.(quantization := o.quantization) else f3
  }

  /** The colorspace switch (src/capture.cpp:567-586): the nine recognised
      colorspaces stay, anything else becomes sRGB for RGB formats and
      Rec. 709 otherwise. */
  function ResolveColorspace(c: u32, isRgb: bool): u32
  {
    if IsRecognizedColorspace(c) then c
    else if isRgb then COLORSPACE_SRGB
    else COLORSPACE_REC709
  }

  /** The default substitution (src/capture.cpp:565-595) applied to the
      overridden record: what `m_v4l_fmt` ends up holding. */
  function Resolve(applied: Format, flags: FormatFlags, maps: DefaultMaps): Format
  {
    var colsp := ResolveColorspace(applied.colorspace, flags.isRgb);
    var xfer := if applied.xferFunc == XFER_FUNC_DEFAULT then maps.xferFunc(colsp) else applied.xferFunc;
    var enc :=
      if flags.isHsv then applied.encoding
      else if applied.encoding == YCBCR_ENC_DEFAULT then maps.ycbcrEnc(colsp)
      else applied.encoding;
    var quant :=
      if applied.quantization == QUANTIZATION_DEFAULT then maps.quantization(flags.isRgb, colsp, enc)
      else applied.quantization;
    applied.(colorspace := colsp, xferFunc := xfer, encoding := enc, quantization := quant)
  }

  /** The final check (src/capture.cpp:597-602): OpenGL may decode sRGB only
      from full-range data with the sRGB transfer function. */
  function KeepsSrgb(acceptsSrgb: bool, resolved: Format): bool
  {
    acceptsSrgb && resolved.quantization != QUANTIZATION_LIM_RANGE && resolved.xferFunc == XFER_FUNC_SRGB
  }

  /** The outcome of `setV4LFormat`: a rejection, or the new flags, the
      caller's overridden format and the resolved format. */
  datatype SetFormatResult =
    | Rejected
    | Accepted(flags: FormatFlags, applied: Format, resolved: Format)

  /** `setV4LFormat` on a device format, the current overrides and the
      default maps. */
  function SetFormat(f: Format, o: Overrides, maps: DefaultMaps): SetFormatResult
  {
    match Classify(f.pixelFormat)
    case None => Rejected
    case Some(flags) =>
      var applied := ApplyOverrides(f, o, flags);
      var resolved := Resolve(applied, flags, maps);
      Accepted(flags.(acceptsSrgb := KeepsSrgb(flags.acceptsSrgb, resolved)), applied, resolved)
  }

  // ---------------------------------------------------------------------
  // Override precedence

  /** Each override replaces its field unless it is NO_OVERRIDE; the HSV
      override reaches only HSV formats, the Y'CbCr override only non-RGB
      formats, and the geometry and pixel format are never touched. */
  lemma OverridePrecedence(f: Format, o: Overrides, flags: FormatFlags)
    ensures var r := ApplyOverrides(f, o, flags);
      && r.pixelFormat == f.pixelFormat && r.width == f.width
      && r.frameHeight == f.frameHeight && r.field == f.field
      && r.colorspace == (if o.colorspace == NO_OVERRIDE then f.colorspace else o.colorspace)
      && r.xferFunc == (if o.xferFunc == NO_OVERRIDE then f.xferFunc else o.xferFunc)
      && r.quantization == (if o.quantization == NO_OVERRIDE then f.quantization else o.quantization)
      && (flags.isHsv && o.hsvEnc != NO_OVERRIDE ==> r.encoding == o.hsvEnc)
      && (!flags.isHsv && !flags.isRgb && o.ycbcrEnc != NO_OVERRIDE ==> r.encoding == o.ycbcrEnc)
      && (flags.isRgb && !flags.isHsv ==> r.encoding == f.encoding)
      && (o.hsvEnc == NO_OVERRIDE && o.ycbcrEnc == NO_OVERRIDE ==> r.encoding == f.encoding)
  {
  }

  /** Without overrides the device's format is kept, and applying the same
      overrides twice is applying them once. */
  lemma OverridesIdentityAndIdempotent(f: Format, o: Overrides, flags: FormatFlags)
    ensures ApplyOverrides(f, NoOverrides, flags) == f
    ensures ApplyOverrides(ApplyOverrides(f, o, flags), o, flags) == ApplyOverrides(f, o, flags)
  {
  }

  // ---------------------------------------------------------------------
  // Defaults

  /** The resolved colorspace is always one of the nine recognised ones; a
      recognised one is kept; JPEG and every other value fall back by the
      RGB flag. */
  lemma ResolveColorspaceSpec(c: u32, isRgb: bool)
    ensures IsRecognizedColorspace(ResolveColorspace(c, isRgb))
    ensures IsRecognizedColorspace(c) ==> ResolveColorspace(c, isRgb) == c
    ensures !IsRecognizedColorspace(c) ==>
      ResolveColorspace(c, isRgb) == (if isRgb then COLORSPACE_SRGB else COLORSPACE_REC709)
    ensures ResolveColorspace(COLORSPACE_JPEG, isRgb) != COLORSPACE_JPEG
    ensures ResolveColorspace(ResolveColorspace(c, isRgb), isRgb) == ResolveColorspace(c, isRgb)
  {
  }

  /** A transfer function, encoding or quantization is replaced only when
      its overridden value is DEFAULT, and then by the default map of the
      resolved colorspace; the HSV encoding is copied unchanged. */
  lemma DefaultsOnlyForDefault(applied: Format, flags: FormatFlags, maps: DefaultMaps)
    ensures var r := Resolve(applied, flags, maps);
      && r.pixelFormat == applied.pixelFormat && r.width == applied.width
      && r.frameHeight == applied.frameHeight && r.field == applied.field
      && (applied.xferFunc != XFER_FUNC_DEFAULT ==> r.xferFunc == applied.xferFunc)
      && (applied.xferFunc == XFER_FUNC_DEFAULT ==> r.xferFunc == maps.xferFunc(r.colorspace))
      && (flags.isHsv ==> r.encoding == applied.encoding)
      && (!flags.isHsv && applied.encoding != YCBCR_ENC_DEFAULT ==> r.encoding == applied.encoding)
      && (!flags.isHsv && applied.encoding == YCBCR_ENC_DEFAULT ==> r.encoding == maps.ycbcrEnc(r.colorspace))
      && (applied.quantization != QUANTIZATION_DEFAULT ==> r.quantization == applied.quantization)
      && (applied.quantization == QUANTIZATION_DEFAULT ==>
            r.quantization == maps.quantization(flags.isRgb, r.colorspace, r.encoding))
  {
  }

  /** After a successful `setV4LFormat` every attribute is specified: the
      colorspace is recognised and no transfer function, quantization or
      Y'CbCr encoding is left at DEFAULT.  (An HSV encoding is copied, so it
      can stay DEFAULT.) */
  lemma ResolvedFullySpecified(f: Format, o: Overrides, maps: DefaultMaps)
    requires ValidMaps(maps)
    ensures SetFormat(f, o, maps).Accepted? ==>
      var r := SetFormat(f, o, maps).resolved;
      && IsRecognizedColorspace(r.colorspace)
      && r.xferFunc != XFER_FUNC_DEFAULT
      && r.quantization != QUANTIZATION_DEFAULT
      && (!SetFormat(f, o, maps).flags.isHsv ==> r.encoding != YCBCR_ENC_DEFAULT)
      && r.pixelFormat == f.pixelFormat
  {
    if SetFormat(f, o, maps).Accepted? {
      var flags := Classify(f.pixelFormat).value;
      ResolveColorspaceSpec(ApplyOverrides(f, o, flags).colorspace, flags.isRgb);
    }
  }

  // ---------------------------------------------------------------------
  // Acceptance and the sRGB check

  /** `setV4LFormat` rejects exactly the codes the formats table does not
      list, and then reports nothing else. */
  lemma SetFormatRejectsUnlisted(f: Format, o: Overrides, maps: DefaultMaps)
    ensures SetFormat(f, o, maps).Rejected? <==> !Listed(f.pixelFormat)
  {
    DecodeListed(f.pixelFormat);
  }

  /** The classification flags of an accepted format are those of its pixel
      format, except that sRGB decoding is kept exactly when the format
      allows it and the resolved format is full-range sRGB. */
  lemma SetFormatFlags(f: Format, o: Overrides, maps: DefaultMaps)
    ensures SetFormat(f, o, maps).Accepted? ==>
      var res := SetFormat(f, o, maps);
      var p := Decode(f.pixelFormat).value;
      && res.flags.(acceptsSrgb := Flags(p).acceptsSrgb) == Flags(p)
      && (res.flags.acceptsSrgb <==>
            p in SrgbFormats
            && res.resolved.quantization != QUANTIZATION_LIM_RANGE
            && res.resolved.xferFunc == XFER_FUNC_SRGB)
  {
    if SetFormat(f, o, maps).Accepted? {
      FlagsOfFormats(Decode(f.pixelFormat).value);
    }
  }

  /** The post-condition of the final check: sRGB decoding implies full- or
      default-range data with the sRGB transfer function. */
  lemma SrgbPostcondition(f: Format, o: Overrides, maps: DefaultMaps)
    ensures SetFormat(f, o, maps).Accepted? && SetFormat(f, o, maps).flags.acceptsSrgb ==>
      SetFormat(f, o, maps).resolved.quantization != QUANTIZATION_LIM_RANGE
      && SetFormat(f, o, maps).resolved.xferFunc == XFER_FUNC_SRGB
  {
  }

  // ---------------------------------------------------------------------
  // Stability

  /** Resolving, then applying the same overrides and resolving again,
      gives the first resolution back. */
  lemma ReapplyStable(f: Format, o: Overrides, flags: FormatFlags, maps: DefaultMaps)
    requires ValidMaps(maps)
    ensures var r := Resolve(ApplyOverrides(f, o, flags), flags, maps);
      Resolve(ApplyOverrides(r, o, flags), flags, maps) == r
  {
    var a := ApplyOverrides(f, o, flags);
    var r := Resolve(a, flags, maps);
    var a2 := ApplyOverrides(r, o, flags);
    ResolveColorspaceSpec(a.colorspace, flags.isRgb);
    assert a2.colorspace == (if o.colorspace == NO_OVERRIDE then r.colorspace else a.colorspace);
    assert ResolveColorspace(a2.colorspace, flags.isRgb) == r.colorspace;
  }

  /** Setting the resolved format again under the same overrides (what
      `updateShader` does) changes nothing: the same flags, and the same
      resolved format. */
  lemma ResolveStable(f: Format, o: Overrides, maps: DefaultMaps)
    requires ValidMaps(maps)
    requires SetFormat(f, o, maps).Accepted?
    ensures var r := SetFormat(f, o, maps);
      var again := SetFormat(r.resolved, o, maps);
      again.Accepted? && again.flags == r.flags && again.resolved == r.resolved
  {
    var flags := Classify(f.pixelFormat).value;
    ReapplyStable(f, o, flags, maps);
    var r := Resolve(ApplyOverrides(f, o, flags), flags, maps);
    assert r.pixelFormat == f.pixelFormat;
  }

  /** A resolved format set again without overrides is a fixed point. */
  lemma ResolvedIsFixedPoint(f: Format, o: Overrides, maps: DefaultMaps)
    requires ValidMaps(maps)
    requires SetFormat(f, o, maps).Accepted?
    ensures var r := SetFormat(f, o, maps);
      SetFormat(r.resolved, NoOverrides, maps) == Accepted(r.flags, r.resolved, r.resolved)
  {
    var flags := Classify(f.pixelFormat).value;
    var r := Resolve(ApplyOverrides(f, o, flags), flags, maps);
    ReapplyStable(r, NoOverrides, flags, maps);
    OverridesIdentityAndIdempotent(r, o, flags);
    ReapplyStable(f, o, flags, maps);
    assert r.pixelFormat == f.pixelFormat;
  }

  /** For a Y'CbCr format, overrides that give every attribute a recognised,
      non-DEFAULT value determine the resolved attributes whatever the device
      reported. */
  lemma FullOverridesDecide(f: Format, g: Format, o: Overrides, maps: DefaultMaps)
    requires f.pixelFormat == g.pixelFormat
    requires SetFormat(f, o, maps).Accepted? && !SetFormat(f, o, maps).flags.isRgb
    requires !SetFormat(f, o, maps).flags.isHsv
    requires IsRecognizedColorspace(o.colorspace)
    requires o.xferFunc != NO_OVERRIDE && o.ycbcrEnc != NO_OVERRIDE && o.quantization != NO_OVERRIDE
    ensures var a := SetFormat(f, o, maps).resolved;
      var b := SetFormat(g, o, maps).resolved;
      a.colorspace == b.colorspace && a.xferFunc == b.xferFunc
      && a.encoding == b.encoding && a.quantization == b.quantization
  {
  }

  // ---------------------------------------------------------------------
  // Worked cases with the kernel's default maps

  /** RGB24 with an unspecified colorspace and no overrides resolves to
      sRGB, the sRGB transfer function and full range, and keeps sRGB
      decoding. */
  lemma Rgb24Unspecified(f: Format)
    requires f.pixelFormat == FourCC(RGB24)
    requires f.colorspace == COLORSPACE_DEFAULT && f.xferFunc == XFER_FUNC_DEFAULT
    requires f.encoding == YCBCR_ENC_DEFAULT && f.quantization == QUANTIZATION_DEFAULT
    ensures var r := SetFormat(f, NoOverrides, KernelMaps);
      && r.Accepted?
      && r.resolved.colorspace == COLORSPACE_SRGB
      && r.resolved.xferFunc == XFER_FUNC_SRGB
      && r.resolved.quantization == QUANTIZATION_FULL_RANGE
      && r.flags.acceptsSrgb
  {
    DecodeFourCC(RGB24);
    RunFromReset(Group(RGB24));
  }

  /** Planar YUV 4:2:0 with everything unspecified resolves to Rec. 709, the
      709 transfer function, the 709 Y'CbCr matrix and limited range; an
      override forcing full range changes only the quantization. */
  lemma Yuv420Unspecified(f: Format, full: Overrides)
    requires f.pixelFormat == FourCC(YUV420)
    requires f.colorspace == COLORSPACE_DEFAULT && f.xferFunc == XFER_FUNC_DEFAULT
    requires f.encoding == YCBCR_ENC_DEFAULT && f.quantization == QUANTIZATION_DEFAULT
    requires full == NoOverrides.(quantization := QUANTIZATION_FULL_RANGE)
    ensures var r := SetFormat(f, NoOverrides, KernelMaps);
      && r.Accepted?
      && r.resolved.colorspace == COLORSPACE_REC709
      && r.resolved.xferFunc == XFER_FUNC_709
      && r.resolved.encoding == YCBCR_ENC_709
      && r.resolved.quantization == QUANTIZATION_LIM_RANGE
      && !r.flags.acceptsSrgb
    ensures var r := SetFormat(f, NoOverrides, KernelMaps);
      var s := SetFormat(f, full, KernelMaps);
      && s.Accepted?
      && s.resolved == r.resolved.(quantization := QUANTIZATION_FULL_RANGE)
      && s.flags == r.flags
  {
    DecodeFourCC(YUV420);
    RunFromReset(Group(YUV420));
  }

  /** A code outside the formats table (the terminator 0, Motion-JPEG) is
      rejected whatever the overrides. */
  lemma UnlistedRejected(f: Format, o: Overrides, maps: DefaultMaps)
    requires f.pixelFormat == 0 || f.pixelFormat == 0x47504a4d // 'MJPG'
    ensures SetFormat(f, o, maps) == Rejected
  {
    assert f.pixelFormat % 0x100 == 0 || f.pixelFormat % 0x100 == 0x4d;
    assert Decode(f.pixelFormat) == None;
  }
}
