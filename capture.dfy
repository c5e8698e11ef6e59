/** The capture window's state and the operations that change it
    (src/capture.h:29-146, src/capture.cpp:175-196, 232-301, 419-546,
    549-602, 635-697): classification, format resolution, the override and
    original-value bookkeeping, and the two-slot buffer hand-off. */
module Capture {
  import opened Wrappers
  import opened Uapi
  import opened PixelFormats
  import opened FormatCodes
  import opened FormatTable
  import opened Classifier
  import opened ColorResolve

  /** The number of per-plane slots; no shader uses more textures. */
  const MAX_TEXTURES_NEEDED: nat := 3

  /** The address of a mapped plane of a buffer. */
  type Address = nat

  /** The mmap buffer queue: its plane count and where each plane of each
      buffer is mapped (`g_dataptr(index, plane)`). */
  datatype BufferQueue = BufferQueue(numPlanes: nat, dataPtr: (nat, nat) -> Address)

  /** A buffer the driver has filled: its index and the bytes used per plane. */
  datatype Buffer = Buffer(index: nat, bytesUsed: nat -> u32)

  /** The capture device, reduced to the indices of the buffers queued to it. */
  class VideoDevice {
    var queued: multiset<nat>

    constructor(initial: multiset<nat>)
      ensures queued == initial
    {
      queued := initial;
    }

    /** `qbuf`: hands a buffer back to the driver. */
    method Qbuf(index: nat)
      modifies this
      ensures queued == old(queued) + multiset{index}
    {
      queued := queued + multiset{index};
    }

    /** `dqbuf`: `ready` is the buffer the driver has completed, if any; the
        call fails when there is none or when it is not queued. */
    method Dqbuf(ready: Option<Buffer>) returns (r: Option<Buffer>)
      modifies this
      ensures r.Some? <==> ready.Some? && ready.value.index in old(queued)
      ensures r.Some? ==> r == ready && queued + multiset{ready.value.index} == old(queued)
      ensures r.None? ==> queued == old(queued)
    {
      if ready.Some? && ready.value.index in queued {
        r := ready;
        queued := queued - multiset{ready.value.index};
      } else {
        r := None;
      }
    }
  }

  /** How the source-change handler ends: handled, or `exit(EXIT_FAILURE)`. */
  datatype EventStatus = Handled | ExitFailure

  /** The `m_orig*` fields: the attributes of the format as first set (or as
      set by the last source change), which "restore all" goes back to. */
  datatype OrigValues = OrigValues(
    pixelFormat: u32, width: u32, height: u32, field: u32, colorspace: u32,
    ycbcrEnc: u32, hsvEnc: u32, xferFunc: u32, quantization: u32)

  /** The original values `updateOrigValues` records from the stored format
      `f` with flags `flags`, `prev` being the values recorded before: for an
      RGB format the transfer function is recorded as YCBCR_ENC_601, as the
      source writes it; only the encoding slot of the format's kind changes. */
  function Recorded(prev: OrigValues, f: Format, flags: FormatFlags): OrigValues
  {
    OrigValues(
      f.pixelFormat, f.width, f.frameHeight, f.field, f.colorspace,
      if !flags.isRgb && !flags.isHsv then f.encoding else prev.ycbcrEnc,
      if !flags.isRgb && flags.isHsv then f.encoding else prev.hsvEnc,
      if flags.isRgb then YCBCR_ENC_601 else f.xferFunc,
      f.quantization)
  }

  /** The overrides after `updateOrigValues`: four of them reset to the
      recorded values; the HSV override is not among them. */
  function ResetToOrig(o: Overrides, orig: OrigValues): Overrides
  {
    o.(colorspace := orig.colorspace, xferFunc := orig.xferFunc,
       ycbcrEnc := orig.ycbcrEnc, quantization := orig.quantization)
  }

  /** The overrides after `restoreAll`: all five set to the recorded values. */
  function Restored(orig: OrigValues): Overrides
  {
    Overrides(orig.colorspace, orig.ycbcrEnc, orig.hsvEnc, orig.xferFunc, orig.quantization)
  }

  class CaptureWin {
    var fd: VideoDevice?
    var v4lFmt: Format
    var queue: Option<BufferQueue>
    var verbose: bool
    var reportTimings: bool
    var isRgb: bool
    var isHsv: bool
    var isBayer: bool
    var usesGlRed: bool
    var acceptsSrgb: bool
    var haveSwapBytes: bool
    var mustUpdateShader: bool
    /** The five `m_override*` fields. */
    var overrides: Overrides
    /** The nine `m_orig*` fields. */
    var orig: OrigValues

    const curData: array<Address>
    const curSize: array<u32>
    const nextData: array<Address>
    const nextSize: array<u32>
    /** Signed buffer indices; -1 means that no buffer is held. */
    var curIndex: int
    var nextIndex: int

    /** The number of buffers that have arrived, and the indices handed
        back to the driver, in order: after N > 0 arrivals exactly N - 1
        buffers have gone back and one is pending. */
    ghost var arrivals: nat
    ghost var returned: seq<nat>

    ghost predicate Valid()
      reads this`curIndex, this`nextIndex, this`arrivals, this`returned
    {
      && curData.Length == MAX_TEXTURES_NEEDED && curSize.Length == MAX_TEXTURES_NEEDED
      && nextData.Length == MAX_TEXTURES_NEEDED && nextSize.Length == MAX_TEXTURES_NEEDED
      && curData != nextData && curSize != nextSize
      && curIndex >= -1 && nextIndex >= -1
      && (nextIndex == -1 <==> arrivals == 0)
      && |returned| == (if arrivals == 0 then 0 else arrivals - 1)
    }

    /** The buffer the window holds for its next frame. */
    function Held(): multiset<nat>
      reads this`nextIndex
    {
      if nextIndex < 0 then multiset{} else multiset{nextIndex as nat}
    }

    function CurrentFlags(): FormatFlags
      reads this`isRgb, this`isHsv, this`isBayer, this`usesGlRed, this`acceptsSrgb
    {
      FormatFlags(isRgb, isHsv, isBayer, usesGlRed, acceptsSrgb)
    }

    /** The initial state: no device, no queue, no original pixel format and
        no buffer held; the remaining fields are uninitialised. */
    constructor()
      ensures Valid()
      ensures fd == null && queue == None && orig.pixelFormat == 0
      ensures curIndex == -1 && nextIndex == -1 && curSize[0] == 0 && curData[0] == 0
      ensures arrivals == 0 && returned == []
      ensures fresh(curData) && fresh(curSize) && fresh(nextData) && fresh(nextSize)
    {
      fd := null;
      queue := None;
      curIndex := -1;
      nextIndex := -1;
      curData := new Address[MAX_TEXTURES_NEEDED];
      curSize := new u32[MAX_TEXTURES_NEEDED];
      nextData := new Address[MAX_TEXTURES_NEEDED];
      nextSize := new u32[MAX_TEXTURES_NEEDED];
      arrivals := 0;
      returned := [];
      new;
      orig := orig.(pixelFormat := 0);
      curSize[0] := 0;
      curData[0] := 0;
    }

    method SetModeV4L2(dev: VideoDevice)
      modifies this`fd
      ensures fd == dev
    {
      fd := dev;
    }

    method SetReportTimings(report: bool)
      modifies this`reportTimings
      ensures reportTimings == report
    {
      reportTimings := report;
    }

    method SetVerbose(v: bool)
      modifies this`verbose
      ensures verbose == v
    {
      verbose := v;
    }

    method SetOverrideColorspace(v: u32)
      modifies this`overrides
      ensures overrides == old(overrides).(colorspace := v)
    {
      overrides := overrides.(colorspace := v);
    }

    method SetOverrideYCbCrEnc(v: u32)
      modifies this`overrides
      ensures overrides == old(overrides).(ycbcrEnc := v)
    {
      overrides := overrides.(ycbcrEnc := v);
    }

    method SetOverrideHSVEnc(v: u32)
      modifies this`overrides
      ensures overrides == old(overrides).(hsvEnc := v)
    {
      overrides := overrides.(hsvEnc := v);
    }

    method SetOverrideXferFunc(v: u32)
      modifies this`overrides
      ensures overrides == old(overrides).(xferFunc := v)
    {
      overrides := overrides.(xferFunc := v);
    }

    method SetOverrideQuantization(v: u32)
      modifies this`overrides
      ensures overrides == old(overrides).(quantization := v)
    {
      overrides := overrides.(quantization := v);
    }

    /** `getFmt`: the resolved format. */
    function GetFmt(): (r: Format)
      reads this`v4lFmt
      ensures r == v4lFmt
    {
      v4lFmt
    }

    /** The four getters report the override fields, not the resolved format. */
    function GetColorspace(): (r: u32)
      reads this`overrides
      ensures r == overrides.colorspace
    {
      overrides.colorspace
    }

    function GetYcbcrEnc(): (r: u32)
      reads this`overrides
      ensures r == overrides.ycbcrEnc
    {
      overrides.ycbcrEnc
    }

    function GetXferFunc(): (r: u32)
      reads this`overrides
      ensures r == overrides.xferFunc
    {
      overrides.xferFunc
    }

    function GetQuantization(): (r: u32)
      reads this`overrides
      ensures r == overrides.quantization
    {
      overrides.quantization
    }

    /** `updateV4LFormat`: resets the five flags, then runs the switch on the
        pixel format from the case group that lists it, falling through
        where the source does; false for a code no case lists. */
    method UpdateV4LFormat(code: u32) returns (ok: bool)
      modifies this`isRgb, this`isHsv, this`isBayer, this`usesGlRed, this`acceptsSrgb
      ensures ok <==> Decode(code).Some?
      ensures ok ==> CurrentFlags() == Flags(Decode(code).value)
      ensures !ok ==> CurrentFlags() == ResetFlags
    {
      isRgb := true;
      isHsv := false;
      usesGlRed := false;
      acceptsSrgb := true;
      isBayer := false;

      match Decode(code)
      case None =>
        return false;
      case Some(p) =>
        var at := Group(p);
        if at == PlanarYuv {
          usesGlRed := true;
          at := PackedYuv;              // falls through
        }
        if at == PackedYuv {
          isRgb := false;
          acceptsSrgb := false;
          return true;                  // break
        }
        if at == Hsv {
          isRgb := false;
          isHsv := true;
          acceptsSrgb := false;
          return true;                  // break
        }
        if at == Bayer {
          isBayer := true;
          at := Luma;                   // falls through
        }
        if at == Luma {
          usesGlRed := true;
          at := OpaqueRgb;              // falls through
        }
        if at == OpaqueRgb {
          acceptsSrgb := false;         // falls through
        }
        return true;
    }

    /** The stored format and the flags as `setV4LFormat(fmt)` leaves them
        under the overrides `o`, when `stored` was the stored format before:
        the resolved format and its flags, or for a rejected format the old
        stored format and the reset flags. */
    predicate FormatSet(fmt: Format, o: Overrides, stored: Format)
      reads this`v4lFmt, this`isRgb, this`isHsv, this`isBayer, this`usesGlRed, this`acceptsSrgb
    {
      var res := SetFormat(fmt, o, KernelMaps);
      && (res.Accepted? ==> v4lFmt == res.resolved && CurrentFlags() == res.flags)
      && (res.Rejected? ==> v4lFmt == stored && CurrentFlags() == ResetFlags)
    }

    /** `setV4LFormat`: classifies the format, applies the overrides to the
        caller's format (returned as `applied`), stores it and resolves the
        stored copy's defaults, then clears sRGB decoding unless the result
        is full-range sRGB.  A rejected format leaves both formats alone. */
    method SetV4LFormat(fmt: Format) returns (ok: bool, applied: Format)
      modifies this`isRgb, this`isHsv, this`isBayer, this`usesGlRed, this`acceptsSrgb, this`v4lFmt
      ensures ok <==> SetFormat(fmt, overrides, KernelMaps).Accepted?
      ensures applied == (if ok then SetFormat(fmt, overrides, KernelMaps).applied else fmt)
      ensures FormatSet(fmt, overrides, old(v4lFmt))
    {
      applied := fmt;
      ok := UpdateV4LFormat(fmt.pixelFormat);
      if !ok {
        return;
      }
      applied := OverrideStep(fmt);
      v4lFmt := applied;
      DefaultStep(applied);
      SrgbStep();
    }

    /** src/capture.cpp:554-563: the overrides written into the caller's format. */
    method OverrideStep(fmt: Format) returns (applied: Format)
      ensures applied == ApplyOverrides(fmt, overrides, CurrentFlags())
    {
      applied := fmt;
      if overrides.colorspace != NO_OVERRIDE {
        applied := applied.(colorspace := overrides.colorspace);
      }
      if isHsv && overrides.hsvEnc != NO_OVERRIDE {
        applied := applied.(encoding := overrides.hsvEnc);
      } else if !isRgb && overrides.ycbcrEnc != NO_OVERRIDE {
        applied := applied.(encoding := overrides.ycbcrEnc);
      }
      if overrides.xferFunc != NO_OVERRIDE {
        applied := applied.(xferFunc := overrides.xferFunc);
      }
      if overrides.quantization != NO_OVERRIDE {
        applied := applied.(quantization := overrides.quantization);
      }
    }

    /** src/capture.cpp:567-595: the defaults of the stored copy resolved;
        every test reads the caller's format `fmt`. */
    method DefaultStep(fmt: Format)
      requires v4lFmt == fmt
      modifies this`v4lFmt
      ensures v4lFmt == Resolve(fmt, CurrentFlags(), KernelMaps)
    {
      if !IsRecognizedColorspace(fmt.colorspace) {
        v4lFmt := v4lFmt.(colorspace := if isRgb then COLORSPACE_SRGB else COLORSPACE_REC709);
      }
      if fmt.xferFunc == XFER_FUNC_DEFAULT {
        v4lFmt := v4lFmt.(xferFunc := MapXferFuncDefault(v4lFmt.colorspace));
      }
      if isHsv {
        v4lFmt := v4lFmt.(encoding := fmt.encoding);
      } else if fmt.encoding == YCBCR_ENC_DEFAULT {
        v4lFmt := v4lFmt.(encoding := MapYcbcrEncDefault(v4lFmt.colorspace));
      }
      if fmt.quantization == QUANTIZATION_DEFAULT {
        v4lFmt := v4lFmt.(quantization := MapQuantizationDefault(isRgb, v4lFmt.colorspace, v4lFmt.encoding));
      }
    }

    /** src/capture.cpp:597-602: OpenGL may not decode sRGB from limited-range
        data or data with another transfer function. */
    method SrgbStep()
      modifies this`acceptsSrgb
      ensures acceptsSrgb == KeepsSrgb(old(acceptsSrgb), v4lFmt)
    {
      if acceptsSrgb && (v4lFmt.quantization == QUANTIZATION_LIM_RANGE || v4lFmt.xferFunc != XFER_FUNC_SRGB) {
        acceptsSrgb := false;
      }
    }

    /** What `updateShader` leaves behind: the stored format set again under
        the current overrides, and a shader update pending. */
    predicate ShaderUpdated(prev: Format)
      reads this`mustUpdateShader, this`v4lFmt, this`isRgb, this`isHsv, this`isBayer,
        this`usesGlRed, this`acceptsSrgb, this`overrides
    {
      mustUpdateShader && FormatSet(prev, overrides, prev)
    }

    /** `updateShader`: `setV4LFormat(m_v4l_fmt)`.  The caller's format is the
        stored one here; every field is read before this call writes it, so
        the stored format ends as the resolved one. */
    method UpdateShader()
      modifies this`isRgb, this`isHsv, this`isBayer, this`usesGlRed, this`acceptsSrgb, this`v4lFmt, this`mustUpdateShader
      ensures ShaderUpdated(old(v4lFmt))
    {
      var ok, applied := SetV4LFormat(v4lFmt);
      mustUpdateShader := true;
    }

    /** `updateColorspace`: the override takes the value (converted to `__u32`) and the
        format is set again. */
    method UpdateColorspace(data: i32)
      modifies this`overrides, this`isRgb, this`isHsv, this`isBayer, this`usesGlRed, this`acceptsSrgb, this`v4lFmt, this`mustUpdateShader
      ensures overrides == old(overrides).(colorspace := ToU32(data))
      ensures ShaderUpdated(old(v4lFmt))
    {
      overrides := overrides.(colorspace := ToU32(data));
      UpdateShader();
    }

    /** `updateYcbcrEnc`: the override takes the value (converted to `__u32`) and the
        format is set again. */
    method UpdateYcbcrEnc(data: i32)
      modifies this`overrides, this`isRgb, this`isHsv, this`isBayer, this`usesGlRed, this`acceptsSrgb, this`v4lFmt, this`mustUpdateShader
      ensures overrides == old(overrides).(ycbcrEnc := ToU32(data))
      ensures ShaderUpdated(old(v4lFmt))
    {
      overrides := overrides.(ycbcrEnc := ToU32(data));
      UpdateShader();
    }

    /** `updateXferFunc`: the override takes the value (converted to `__u32`) and the
        format is set again. */
    method UpdateXferFunc(data: i32)
      modifies this`overrides, this`isRgb, this`isHsv, this`isBayer, this`usesGlRed, this`acceptsSrgb, this`v4lFmt, this`mustUpdateShader
      ensures overrides == old(overrides).(xferFunc := ToU32(data))
      ensures ShaderUpdated(old(v4lFmt))
    {
      overrides := overrides.(xferFunc := ToU32(data));
      UpdateShader();
    }

    /** `updateQuantization`: the override takes the value (converted to `__u32`) and the
        format is set again. */
    method UpdateQuantization(data: i32)
      modifies this`overrides, this`isRgb, this`isHsv, this`isBayer, this`usesGlRed, this`acceptsSrgb, this`v4lFmt, this`mustUpdateShader
      ensures overrides == old(overrides).(quantization := ToU32(data))
      ensures ShaderUpdated(old(v4lFmt))
    {
      overrides := overrides.(quantization := ToU32(data));
      UpdateShader();
    }

    /** `restoreAll`: every override back to its original value, then the
        format set again (through `restoreSize`). */
    method RestoreAll()
      modifies this`overrides, this`isRgb, this`isHsv, this`isBayer, this`usesGlRed, this`acceptsSrgb, this`v4lFmt, this`mustUpdateShader
      ensures overrides == Restored(orig)
      ensures ShaderUpdated(old(v4lFmt))
    {
      overrides := overrides.(colorspace := orig.colorspace);
      overrides := overrides.(xferFunc := orig.xferFunc);
      overrides := overrides.(ycbcrEnc := orig.ycbcrEnc);
      overrides := overrides.(hsvEnc := orig.hsvEnc);
      overrides := overrides.(quantization := orig.quantization);
      UpdateShader();
    }

    /** `updateOrigValues`: the stored format recorded as the original
        values, and four overrides reset to them. */
    method UpdateOrigValues()
      modifies this`orig, this`overrides
      ensures orig == Recorded(old(orig), v4lFmt, CurrentFlags())
      ensures overrides == ResetToOrig(old(overrides), orig)
    {
      orig := orig.(width := v4lFmt.width, height := v4lFmt.frameHeight,
                    pixelFormat := v4lFmt.pixelFormat, field := v4lFmt.field,
                    colorspace := v4lFmt.colorspace, xferFunc := v4lFmt.xferFunc);
      if isRgb {
        orig := orig.(xferFunc := YCBCR_ENC_601);
      } else if isHsv {
        orig := orig.(hsvEnc := v4lFmt.encoding);
      } else {
        orig := orig.(ycbcrEnc := v4lFmt.encoding);
      }
      orig := orig.(quantization := v4lFmt.quantization);
      overrides := overrides.(colorspace := orig.colorspace);
      overrides := overrides.(xferFunc := orig.xferFunc);
      overrides := overrides.(ycbcrEnc := orig.ycbcrEnc);
      overrides := overrides.(quantization := orig.quantization);
    }

    /** `setQueue`: records the queue; the first time (no original pixel
        format yet) the original values are taken from the stored format. */
    method SetQueue(q: BufferQueue)
      modifies this`queue, this`orig, this`overrides
      ensures queue == Some(q)
      ensures old(orig.pixelFormat) == 0 ==>
        orig == Recorded(old(orig), v4lFmt, CurrentFlags())
        && overrides == ResetToOrig(old(overrides), orig)
      ensures old(orig.pixelFormat) != 0 ==> orig == old(orig) && overrides == old(overrides)
    {
      queue := Some(q);
      if orig.pixelFormat == 0 {
        UpdateOrigValues();
      }
    }

    /** The source-change branch of `v4l2ExceptionEvent`, given the format
        `g_fmt` reports: an unsupported format ends the program; otherwise
        the format is set, the original values are refreshed and a shader
        update is requested. */
    method SourceChange(devFmt: Format) returns (status: EventStatus)
      modifies this`isRgb, this`isHsv, this`isBayer, this`usesGlRed, this`acceptsSrgb, this`v4lFmt, this`mustUpdateShader, this`orig, this`overrides
      ensures status == ExitFailure <==> SetFormat(devFmt, old(overrides), KernelMaps).Rejected?
      ensures FormatSet(devFmt, old(overrides), old(v4lFmt))
      ensures status == ExitFailure ==> orig == old(orig) && overrides == old(overrides)
      ensures status == Handled ==>
        && mustUpdateShader
        && orig == Recorded(old(orig), v4lFmt, CurrentFlags())
        && overrides == ResetToOrig(old(overrides), orig)
    {
      var ok, applied := SetV4LFormat(devFmt);
      if !ok {
        return ExitFailure;
      }
      UpdateOrigValues();
      mustUpdateShader := true;
      return Handled;
    }

    /** The next slots hold the planes of buffer `b` of queue `q`; the slots
        past the plane count hold what they held before (`data`, `sizes`). */
    ghost predicate PlanesRecorded(q: BufferQueue, b: Buffer, data: seq<Address>, sizes: seq<u32>)
      reads nextData, nextSize
    {
      && |data| == nextData.Length && |sizes| == nextSize.Length
      && q.numPlanes <= nextData.Length && q.numPlanes <= nextSize.Length
      && (forall k :: 0 <= k < q.numPlanes ==>
            nextData[k] == q.dataPtr(b.index, k) && nextSize[k] == b.bytesUsed(k))
      && (forall k :: q.numPlanes <= k < nextData.Length ==> nextData[k] == data[k])
      && (forall k :: q.numPlanes <= k < nextSize.Length ==> nextSize[k] == sizes[k])
    }

    /** src/capture.cpp:642-645: the planes of buffer `b` recorded in the
        next slots. */
    method FillNextPlanes(q: BufferQueue, b: Buffer)
      requires Valid() && q.numPlanes <= MAX_TEXTURES_NEEDED
      modifies nextData, nextSize
      ensures PlanesRecorded(q, b, old(nextData[..]), old(nextSize[..]))
    {
      for k := 0 to q.numPlanes
        invariant forall j :: 0 <= j < k ==>
          nextData[j] == q.dataPtr(b.index, j) && nextSize[j] == b.bytesUsed(j)
        invariant forall j :: k <= j < MAX_TEXTURES_NEEDED ==>
          nextData[j] == old(nextData[j]) && nextSize[j] == old(nextSize[j])
      {
        nextData[k] := q.dataPtr(b.index, k);
        nextSize[k] := b.bytesUsed(k);
      }
    }

    /** src/capture.cpp:646-651: `index` becomes the pending buffer and the
        buffer pending before it, if any, goes back to the driver. */
    method HandOff(index: nat)
      requires Valid() && fd != null
      modifies this`nextIndex, this`arrivals, this`returned, fd
      ensures Valid()
      ensures nextIndex == index && arrivals == old(arrivals) + 1
      ensures fd.queued + Held() == old(fd.queued) + multiset{index} + old(Held())
      ensures old(nextIndex) == -1 ==> fd.queued == old(fd.queued) && returned == old(returned)
      ensures old(nextIndex) != -1 ==>
        && fd.queued == old(fd.queued) + multiset{old(nextIndex) as nat}
        && returned == old(returned) + [old(nextIndex) as nat]
    {
      var next := nextIndex;
      nextIndex := index;
      arrivals := arrivals + 1;
      if next != -1 {
        fd.Qbuf(next);
        returned := returned + [next];
      }
    }

    /** `v4l2ReadEvent`: dequeues a completed buffer; on failure nothing
        changes.  On success the buffer's planes are recorded in the next
        slots, it becomes the pending buffer, and the buffer pending before
        it, if any, is queued again.  No buffer is lost or duplicated: the
        driver's queue and the pending slot together hold the same indices. */
    method ReadEvent(ready: Option<Buffer>)
      requires Valid() && fd != null && queue.Some?
      requires queue.value.numPlanes <= MAX_TEXTURES_NEEDED
      modifies this`nextIndex, this`arrivals, this`returned, fd, nextData, nextSize
      ensures Valid()
      ensures fd.queued + Held() == old(fd.queued) + old(Held())
      ensures !(ready.Some? && ready.value.index in old(fd.queued)) ==>
        && fd.queued == old(fd.queued) && nextIndex == old(nextIndex)
        && nextData[..] == old(nextData[..]) && nextSize[..] == old(nextSize[..])
        && arrivals == old(arrivals) && returned == old(returned)
      ensures ready.Some? && ready.value.index in old(fd.queued) ==>
        nextIndex == ready.value.index && arrivals == old(arrivals) + 1
      ensures ready.Some? && ready.value.index in old(fd.queued) ==>
        PlanesRecorded(queue.value, ready.value, old(nextData[..]), old(nextSize[..]))
      ensures ready.Some? && ready.value.index in old(fd.queued) && old(nextIndex) == -1 ==>
        fd.queued + multiset{ready.value.index} == old(fd.queued) && returned == old(returned)
      ensures ready.Some? && ready.value.index in old(fd.queued) && old(nextIndex) != -1 ==>
        && fd.queued + multiset{ready.value.index} == old(fd.queued) + multiset{old(nextIndex) as nat}
        && returned == old(returned) + [old(nextIndex) as nat]
    {
      var buf := fd.Dqbuf(ready);
      if buf.None? {
        return;
      }
      var b := buf.value;
      FillNextPlanes(queue.value, b);
      HandOff(b.index);
    }
  }

  /** The effect of recording YCBCR_ENC_601 as the original transfer function
      of an RGB format: once the overrides are reset to the recorded values
      (by `updateOrigValues` itself, or by `restoreAll`), setting the format
      again yields the Rec. 709 transfer function (the same number) and turns
      sRGB decoding off, whatever the device reported. */
  lemma RgbOrigXferDropsSrgb(f: Format, o: Overrides, prev: OrigValues, maps: DefaultMaps)
    requires SetFormat(f, o, maps).Accepted? && SetFormat(f, o, maps).flags.isRgb
    ensures var res := SetFormat(f, o, maps);
      var orig := Recorded(prev, res.resolved, res.flags);
      var reset := SetFormat(res.resolved, ResetToOrig(o, orig), maps);
      var restored := SetFormat(res.resolved, Restored(orig), maps);
      && orig.xferFunc == XFER_FUNC_709
      && reset.Accepted? && reset.resolved.xferFunc == XFER_FUNC_709 && !reset.flags.acceptsSrgb
      && restored.Accepted? && restored.resolved.xferFunc == XFER_FUNC_709 && !restored.flags.acceptsSrgb
  {
    var flags := Classify(f.pixelFormat).value;
    var r := Resolve(ApplyOverrides(f, o, flags), flags, maps);
    assert r.pixelFormat == f.pixelFormat;
  }

  /** For a Y'CbCr format, by contrast, the recorded values are the resolved
      ones: restoring them and setting the format again changes nothing. */
  lemma YcbcrRestoreStable(f: Format, o: Overrides, prev: OrigValues, maps: DefaultMaps)
    requires ValidMaps(maps)
    requires SetFormat(f, o, maps).Accepted?
    requires !SetFormat(f, o, maps).flags.isRgb && !SetFormat(f, o, maps).flags.isHsv
    ensures var res := SetFormat(f, o, maps);
      var orig := Recorded(prev, res.resolved, res.flags);
      var again := SetFormat(res.resolved, Restored(orig), maps);
      again.Accepted? && again.resolved == res.resolved && again.flags == res.flags
  {
    var flags := Classify(f.pixelFormat).value;
    var r := Resolve(ApplyOverrides(f, o, flags), flags, maps);
    assert r.pixelFormat == f.pixelFormat;
    ResolveColorspaceSpec(ApplyOverrides(f, o, flags).colorspace, flags.isRgb);
  }
}
