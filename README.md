# ragna: colour-format core, in Dafny

ragna is a Qt viewer for V4L2 capture devices that renders with OpenGL.
This project models the part of it that decides *what* is displayed. The
OpenGL work of deciding *how* is not modelled. The model covers:

- **the pixel formats** (`pixel_formats.dfy`):
  - the zero-terminated `formats[]` table, as an enumeration of 92 formats with their fourcc codes;
  - the case labels of the `updateV4LFormat` switch, as a decoder from a code to a format;
  - proofs that the labels and the table agree code for code.
- **the classifier** (`classifier.dfy`):
  - the fall-through switch of `updateV4LFormat`, executed group by group, which yields the five flags: RGB, HSV, Bayer, single-channel GL texture, sRGB decoding;
  - the capability gate `supportedFmt`.
- **colour resolution** (`color_resolve.dfy`): what `setV4LFormat` does to a format as a function on records:
  - the overrides;
  - the substitution of `*_DEFAULT` colorimetry through the kernel's `V4L2_MAP_*_DEFAULT` macros;
  - the final sRGB check.
- **the capture window** (`capture.dfy`): the `CaptureWin` state as a class whose methods update its fields in place:
  - `setV4LFormat` step by step;
  - the override setters and `restoreAll`;
  - `updateOrigValues` and `setQueue`;
  - the source-change event;
  - the two-slot buffer hand-off of `v4l2ReadEvent` against a device whose queue is a multiset of buffer indices.
- **preferences** (`prefs.dfy`):
  - the four name/code tables of `ragnaprefs.cpp`;
  - the sentinel-terminated scans `s2code` and `code2s` as loops proved against recursive lookups;
  - the `read_*` and `*2s` members of `RagnaPrefs`.
- **the command line** (`cli.dfy`):
  - the `parse_*` functions;
  - `isOptArg` and `isOption`, and both overloads of `processOption`;
  - `getDeviceName`;
  - the option loop of `main`, as a method proved against a recursive specification;
  - the check that the device's pixel format is in `formats[]`.
- **V4L2 values and helpers** (`uapi.dfy` and `wrappers.dfy`): the V4L2 constants and default-map macros, and an `Option` type.

Main results:
- `setV4LFormat` accepts exactly the codes of `formats[]`.
- After `setV4LFormat` every attribute is specified, except an HSV encoding, which is copied.
- Setting a resolved format again changes nothing.
- An override replaces exactly its own field.
- sRGB decoding survives only for the fifteen formats whose switch group keeps it, and only when the resolved data uses the sRGB transfer function and is not limited range.
- `v4l2ReadEvent` neither loses nor duplicates a buffer.
- `s2code` and `code2s` are inverse on every table entry.
- The option loop method computes exactly its specification, and a set of worked command lines is evaluated.

Where the code and its documentation disagree, the model follows the code:
- The usage text (src/ragna.cpp:30) offers "709" as a transfer-function name, but `parse_xfer_func` only knows "rec709". "709" becomes an override with XFER_FUNC_DEFAULT (`Cli.UnknownNamesStillOverride`).
- The command line's quantization names are "full-range" and "lim-range". The preference table's are "full" and "limited" (`Cli.QuantizationNamesDiffer`).
- An unknown colorspace name is an override with 0, never "no override".
- The Y'CbCr override also reaches HSV formats that have no HSV override. This follows the order of the tests at src/capture.cpp:556-559.
- Unlike every other attribute, the HSV encoding is copied from the device, so it can stay DEFAULT after `setV4LFormat` (`ColorResolve.ResolvedFullySpecified`).
- `updateOrigValues` records YCBCR_ENC_601 as the original transfer function of an RGB format (src/capture.cpp:686). That is the number of XFER_FUNC_709. The model keeps the code as written, and `Capture.RgbOrigXferDropsSrgb` proves the consequence: after the overrides are reset to the recorded values, or after "restore all", an RGB format is resolved with the Rec. 709 transfer function and loses sRGB decoding.

## Model

| member | source | states |
|---|---|---|
| PixelFormats.FourCC | src/capture.cpp:19-113 | every entry of `formats[]` has a nonzero fourcc code, so none can be mistaken for the terminator |
| FormatCodes.DecodeSound | src/capture.cpp:435-545 | a code that a case label of `updateV4LFormat` lists is the fourcc of the format that label names |
| FormatCodes.DecodeFourCC | src/capture.cpp:435-545 | the switch recognises every format of the table by its own code (decode after encode is the identity) |
| FormatTable.Codes | src/capture.cpp:19-113 | the code list has one code per format, in table order |
| FormatTable.TableShape | src/capture.cpp:19-113 | `formats[]` holds the 92 codes in order, none of them 0, followed by the 0 terminator |
| FormatTable.ListedInTable | src/capture.cpp:19-113 | a code is listed exactly when it occurs before the terminator |
| FormatTable.RankInFormats | src/capture.cpp:19-113 | every format has a position in the table |
| FormatTable.DecodeListed | src/capture.cpp:426-546 | the switch accepts a code exactly when `formats[]` lists it |
| Classifier.Position | src/capture.cpp:433-545 | each of the seven case groups has a place below 7 in switch order; falling through moves to a later place, which bounds the run |
| Classifier.Classify | src/capture.cpp:426-546 | `updateV4LFormat` succeeds exactly on the codes `formats[]` lists; its flags are those of the format whose fourcc the code is, and they are consistent: HSV excludes RGB, Bayer implies RGB and the GL red texture, sRGB decoding implies RGB without it |
| Classifier.OneFormatPerCode | src/capture.cpp:435-545 | a decoded code is the fourcc of exactly one format, so no two case labels name the same code |
| Classifier.RunFromReset | src/capture.cpp:428-545 | each flag after the switch, as an if-and-only-if on the case group where execution starts |
| Classifier.FlagsConsistent | src/capture.cpp:428-545 | HSV excludes RGB; Bayer implies the GL red texture and RGB; planar YUV is not RGB and uses the GL red texture; sRGB decoding implies RGB without the GL red texture |
| Classifier.FlagsOfFormats | src/capture.cpp:428-545 | sRGB decoding survives the switch exactly for RGB24, BGR24, the twelve RGB555 variants and RGB332; HSV is set exactly for HSV24 and HSV32 |
| Classifier.SrgbGroupMembers | src/capture.cpp:527-542 | the last case group holds exactly those fifteen formats |
| Classifier.HsvGroupMembers | src/capture.cpp:471-476 | the HSV group holds exactly HSV24 and HSV32 |
| Classifier.SupportedFormatRefusals | src/capture.cpp:347-377 | `supportedFmt` refuses a format exactly when it needs byte swapping that is absent, or is one of the fifteen formats OpenGL ES cannot upload |
| Classifier.SupportedFmtCodes | src/capture.cpp:347-377 | on a code it decides the decoded format; it never refuses a code outside the switch; with byte swapping on desktop GL it refuses nothing |
| Classifier.SupportedFmtMonotone | src/capture.cpp:347-377 | more capability never refuses more formats |
| Uapi.ToU32 | src/capture.cpp:270-292 | converting an `int` slot argument to `__u32` keeps non-negative values and sends -1 to 0xffffffff |
| Uapi.MapXferFuncDefault | src/capture.cpp:588-589 | the default transfer function is never DEFAULT, and is sRGB exactly for the sRGB and JPEG colorspaces |
| Uapi.MapYcbcrEncDefault | src/capture.cpp:592-593 | the default Y'CbCr encoding is never DEFAULT |
| Uapi.MapQuantizationDefault | src/capture.cpp:594-596 | the default quantization is full or limited range, and is full range exactly for RGB/HSV or JPEG |
| Uapi.KernelMapsValid | src/capture.cpp:588-596 | no default macro ever answers with its DEFAULT sentinel |
| ColorResolve.OverridePrecedence | src/capture.cpp:554-563 | each override replaces its own field unless it is 0xffffffff; the HSV override reaches only HSV formats, the Y'CbCr override only non-RGB ones; geometry and pixel format are untouched |
| ColorResolve.OverridesIdentityAndIdempotent | src/capture.cpp:554-563 | without overrides the device's format is kept; applying the same overrides twice equals applying them once |
| ColorResolve.ResolveColorspaceSpec | src/capture.cpp:567-586 | the resolved colorspace is always one of the nine recognised; a recognised one is kept; others, JPEG included, become sRGB for RGB and Rec. 709 otherwise; the step is idempotent |
| ColorResolve.DefaultsOnlyForDefault | src/capture.cpp:587-596 | a transfer function, encoding or quantization changes only when DEFAULT, and then to the macro's value for the resolved colorspace; an HSV encoding is copied |
| ColorResolve.ResolvedFullySpecified | src/capture.cpp:549-602 | after a successful call the colorspace is recognised, neither the transfer function nor the quantization is DEFAULT, the encoding of a non-HSV format is not DEFAULT, and the pixel format is the device's |
| ColorResolve.SetFormatRejectsUnlisted | src/capture.cpp:549-552 | `setV4LFormat` fails exactly on codes that `formats[]` does not list |
| ColorResolve.SetFormatFlags | src/capture.cpp:597-602 | the flags are the pixel format's own, except sRGB decoding: it is kept exactly for the fifteen sRGB-capable formats whose resolved data is not limited range and uses the sRGB transfer function |
| ColorResolve.SrgbPostcondition | src/capture.cpp:597-602 | sRGB decoding after the call implies non-limited range and the sRGB transfer function |
| ColorResolve.ReapplyStable | src/capture.cpp:549-602 | applying the same overrides to a resolved format and resolving again gives it back |
| ColorResolve.ResolveStable | src/capture.cpp:232-236 | `updateShader` setting the resolved format again under the same overrides changes neither format nor flags |
| ColorResolve.ResolvedIsFixedPoint | src/capture.cpp:549-602 | a resolved format set again without overrides is accepted unchanged |
| ColorResolve.FullOverridesDecide | src/capture.cpp:554-563 | for a Y'CbCr format, overrides giving every attribute a definite value decide the result whatever the device reported |
| ColorResolve.Rgb24Unspecified | src/capture.cpp:549-602 | RGB24 with nothing specified resolves to sRGB, the sRGB transfer function and full range, and keeps sRGB decoding |
| ColorResolve.Yuv420Unspecified | src/capture.cpp:549-602 | YUV420 with nothing specified resolves to Rec. 709, the 709 transfer function and encoding, and limited range; a full-range override changes only the quantization |
| ColorResolve.UnlistedRejected | src/capture.cpp:543-544 | the terminator code 0 and Motion-JPEG are rejected whatever the overrides |
| Capture.VideoDevice.constructor | src/ragna.cpp:340-343 | the device starts with the buffers queued by `queue_all` |
| Capture.VideoDevice.Qbuf | src/capture.cpp:648-650 | queueing adds exactly that index to the device's queue |
| Capture.VideoDevice.Dqbuf | src/capture.cpp:637-640 | dequeueing succeeds exactly when a completed buffer is queued, and then removes exactly its index; on failure the queue is unchanged |
| Capture.CaptureWin.constructor | src/capture.cpp:175-188 | no device, no queue, original pixel format 0, no buffer held, first "current" slot cleared |
| Capture.CaptureWin.SetModeV4L2 | src/capture.cpp:400-402 | the device is recorded |
| Capture.CaptureWin.SetReportTimings | src/capture.h:42 | the timing flag takes the value |
| Capture.CaptureWin.SetVerbose | src/capture.h:43 | the verbose flag takes the value |
| Capture.CaptureWin.SetOverrideColorspace | src/ragna.cpp:319 | only the colorspace override changes |
| Capture.CaptureWin.SetOverrideYCbCrEnc | src/ragna.cpp:320 | only the Y'CbCr override changes |
| Capture.CaptureWin.SetOverrideHSVEnc | src/ragna.cpp:321 | only the HSV override changes |
| Capture.CaptureWin.SetOverrideXferFunc | src/ragna.cpp:322 | only the transfer-function override changes |
| Capture.CaptureWin.SetOverrideQuantization | src/ragna.cpp:323 | only the quantization override changes |
| Capture.CaptureWin.GetFmt | src/capture.h:45 | the stored, resolved format |
| Capture.CaptureWin.GetColorspace | src/capture.h:47 | the colorspace override field, not the resolved format |
| Capture.CaptureWin.GetYcbcrEnc | src/capture.h:48 | the Y'CbCr override field |
| Capture.CaptureWin.GetXferFunc | src/capture.h:49 | the transfer-function override field |
| Capture.CaptureWin.GetQuantization | src/capture.h:50 | the quantization override field |
| Capture.CaptureWin.UpdateV4LFormat | src/capture.cpp:426-546 | the fall-through switch: it succeeds exactly on decodable codes, leaves the flags of that format, and leaves the reset flags otherwise |
| Capture.CaptureWin.SetV4LFormat | src/capture.cpp:549-602 | success exactly when the function specification accepts; the caller's format gets the overrides; the stored format and flags equal the specification's; on rejection the stored format is unchanged and the flags are the reset values of lines 428-432 |
| Capture.CaptureWin.OverrideStep | src/capture.cpp:554-563 | the caller's format is the override function of the current overrides and flags |
| Capture.CaptureWin.DefaultStep | src/capture.cpp:565-596 | the stored copy is resolved, with every test reading the caller's format |
| Capture.CaptureWin.SrgbStep | src/capture.cpp:597-602 | sRGB decoding is cleared unless the stored format is full-range sRGB |
| Capture.CaptureWin.UpdateShader | src/capture.cpp:232-236 | the stored format is set again under the current overrides, and a shader update is pending |
| Capture.CaptureWin.UpdateColorspace | src/capture.cpp:270-274 | only the colorspace override takes the converted value, then the format is set again |
| Capture.CaptureWin.UpdateYcbcrEnc | src/capture.cpp:276-280 | only the Y'CbCr override takes the converted value, then the format is set again |
| Capture.CaptureWin.UpdateXferFunc | src/capture.cpp:282-286 | only the transfer-function override takes the converted value, then the format is set again |
| Capture.CaptureWin.UpdateQuantization | src/capture.cpp:288-292 | only the quantization override takes the converted value, then the format is set again |
| Capture.CaptureWin.RestoreAll | src/capture.cpp:259-268 | all five overrides take the recorded original values, then the format is set again |
| Capture.CaptureWin.UpdateOrigValues | src/capture.cpp:677-697 | the stored format is recorded, filling only the encoding slot of the format's kind; four overrides, not the HSV one, reset to the recorded values |
| Capture.CaptureWin.SetQueue | src/capture.cpp:419-424 | the queue is recorded; original values are taken only while the original pixel format is still 0 |
| Capture.CaptureWin.SourceChange | src/capture.cpp:660-673 | exit exactly when the new format is rejected, with nothing recorded; otherwise the format is set, original values refreshed, overrides reset and a shader update requested |
| Capture.CaptureWin.FillNextPlanes | src/capture.cpp:642-645 | the next slots hold the dequeued buffer's plane addresses and sizes, and later slots are unchanged |
| Capture.CaptureWin.HandOff | src/capture.cpp:646-651 | the new buffer becomes pending and the previous pending one, if any, goes back to the device; queued plus held indices gain exactly the new index |
| Capture.CaptureWin.ReadEvent | src/capture.cpp:635-653 | on a failed dequeue nothing changes; otherwise the planes are recorded and the buffer is handed off; the device queue and the pending slot together hold the same indices as before |
| Capture.RgbOrigXferDropsSrgb | src/capture.cpp:685-686 | recording YCBCR_ENC_601 as an RGB format's transfer function makes the next resolution, under reset or restored overrides, use Rec. 709 and drop sRGB decoding |
| Capture.YcbcrRestoreStable | src/capture.cpp:259-268 | for a Y'CbCr format "restore all" reproduces the resolved format and flags |
| Prefs.S2Code | src/ragnaprefs.cpp:51-66 | the loop returns the code of the first entry named by the lower-cased string, and the default when none before the terminator is |
| Prefs.Code2S | src/ragnaprefs.cpp:68-83 | the loop returns the name of the first entry with the code, and "default" when none before the terminator has it |
| Prefs.LookupCodeFirst | src/ragnaprefs.cpp:55-62 | the name lookup yields the code of the first matching entry |
| Prefs.LookupCodeAbsent | src/ragnaprefs.cpp:51-66 | with no match before the terminator the name lookup yields the given default |
| Prefs.LookupNameFirst | src/ragnaprefs.cpp:72-79 | the code lookup yields the name of the first matching entry |
| Prefs.LookupNameAbsent | src/ragnaprefs.cpp:68-83 | with no match before the terminator the code lookup yields "default" |
| Prefs.ScansStopAtTerminator | src/ragnaprefs.cpp:55-79 | both lookups ignore everything after the terminator |
| Prefs.RoundTrip | src/ragnaprefs.cpp:51-83 | on a terminated table with distinct codes and names, name-to-code and code-to-name are inverse on every entry |
| Prefs.ColorspaceCodes | src/ragnaprefs.cpp:9-21 | the colorspace table is terminated, its codes distinct and never COLORSPACE_DEFAULT |
| Prefs.ColorspaceNames | src/ragnaprefs.cpp:9-21 | the colorspace names are distinct, lower case and never "default" |
| Prefs.XferFuncCodes | src/ragnaprefs.cpp:23-32 | the transfer-function table is terminated, its codes distinct and never DEFAULT |
| Prefs.XferFuncNames | src/ragnaprefs.cpp:23-32 | its names are distinct, lower case and never "default" |
| Prefs.YcbcrEncCodes | src/ragnaprefs.cpp:34-43 | the Y'CbCr table is terminated, its codes distinct and never DEFAULT |
| Prefs.YcbcrEncNames | src/ragnaprefs.cpp:34-43 | its names are distinct, lower case and never "default" |
| Prefs.QuantizationCodes | src/ragnaprefs.cpp:45-49 | the quantization table is terminated, its codes distinct and never DEFAULT |
| Prefs.QuantizationNames | src/ragnaprefs.cpp:45-49 | its names are distinct, lower case and never "default" |
| Prefs.TableFacts | src/ragnaprefs.cpp:9-49 | all four tables are well formed |
| Prefs.LowerNameFixed | src/ragnaprefs.cpp:53 | lower-casing leaves a lower-case name unchanged |
| Prefs.LowerUpper | src/ragnaprefs.cpp:53 | lower-casing forgets case and is idempotent |
| Prefs.SettingRoundTrip | src/ragnaprefs.cpp:85-124 | every table name is read back as its code in any letter case, and that code is rendered as the same name |
| Prefs.UnknownReadsDefault | src/ragnaprefs.cpp:85-124 | an unknown name is read as the setting's DEFAULT code, which is rendered as "default", which reads back as DEFAULT |
| Prefs.RagnaPrefs.ReadColorspace | src/ragnaprefs.cpp:85-88 | only the colorspace field changes, to the table lookup of the lower-cased string with COLORSPACE_DEFAULT as fallback |
| Prefs.RagnaPrefs.ReadQuantization | src/ragnaprefs.cpp:90-94 | only the quantization field changes, to its lookup with QUANTIZATION_DEFAULT as fallback |
| Prefs.RagnaPrefs.ReadXferFunc | src/ragnaprefs.cpp:96-99 | only the transfer-function field changes, to its lookup with XFER_FUNC_DEFAULT as fallback |
| Prefs.RagnaPrefs.ReadYcbcr | src/ragnaprefs.cpp:101-104 | only the Y'CbCr field changes, to its lookup with YCBCR_ENC_DEFAULT as fallback |
| Prefs.RagnaPrefs.Colorspace2S | src/ragnaprefs.cpp:106-109 | the colorspace table's name for the code, or "default" |
| Prefs.RagnaPrefs.Quantization2S | src/ragnaprefs.cpp:111-114 | the quantization table's name for the code, or "default" |
| Prefs.RagnaPrefs.XferFunc2S | src/ragnaprefs.cpp:116-119 | the transfer-function table's name for the code, or "default" |
| Prefs.RagnaPrefs.Ycbcr2S | src/ragnaprefs.cpp:121-124 | the Y'CbCr table's name for the code, or "default" |
| Cli.ParseColorspace | src/ragna.cpp:70-83 | the result is 0, JPEG or one of the nine recognised colorspaces |
| Cli.ParseXferFunc | src/ragna.cpp:85-96 | the result is a defined transfer-function value |
| Cli.ParseYcbcr | src/ragna.cpp:98-109 | the result is a defined Y'CbCr encoding value |
| Cli.ParseHsv | src/ragna.cpp:111-117 | "180" gives HSV_ENC_180 and "256" gives HSV_ENC_256; every other string, "default" included, gives YCBCR_ENC_DEFAULT |
| Cli.ParseQuantization | src/ragna.cpp:119-125 | full range exactly for "full-range", limited range exactly for "lim-range", DEFAULT otherwise |
| Cli.ParseColorspaceTable | src/ragna.cpp:70-83 | the colorspace parser equals case-sensitive lookup in the preference table, with DEFAULT for unknown names |
| Cli.ParseXferFuncTable | src/ragna.cpp:85-96 | the transfer-function parser equals lookup in the preference table |
| Cli.ParseYcbcrTable | src/ragna.cpp:98-109 | the Y'CbCr parser equals lookup in the preference table |
| Cli.QuantizationNamesDiffer | src/ragna.cpp:119-125 | "full" selects full range in the preferences but not on the command line, and "full-range" the other way round |
| Cli.UnknownNamesStillOverride | src/ragna.cpp:70-96 | an unknown colorspace name gives 0, which is still an override; "709" gives XFER_FUNC_DEFAULT and only "rec709" gives 709 |
| Cli.IndexOf | src/ragna.cpp:147 | the first position of the character, and -1 exactly when it is absent |
| Cli.PrefixAndExact | src/ragna.cpp:180-188 | `isOptArg` is a prefix test and `isOption` an exact one: an option with text after it passes the first and fails the second |
| Cli.InlineIndex | src/ragna.cpp:144-149 | the value index is -1 or a position in the argument |
| Cli.LongInlineValue | src/ragna.cpp:146-158 | in `--opt=value` the value is the text after the first '=', the index stays, and an empty value is missing |
| Cli.ShortInlineValue | src/ragna.cpp:148-158 | in `-Xvalue` the value is the text after the letter, never empty, and the index stays |
| Cli.NextArgumentValue | src/ragna.cpp:159-164 | otherwise the value is the next argument and the index advances by exactly one; with no argument left the value is missing |
| Cli.ProcessOption | src/ragna.cpp:142-165 | the method returns the option value and index exactly as specified, or fails with the index unchanged |
| Cli.ProcessOptionUInt | src/ragna.cpp:167-178 | success exactly when the value is present and is a number; a value that is no number still advances the index and stores 0 |
| Cli.AppendDigit | src/ragna.cpp:66 | appending a digit multiplies the decimal value by ten and adds the digit |
| Cli.NonDigitName | src/ragna.cpp:66 | a name starting with neither a sign nor a digit is no integer |
| Cli.GetDeviceName | src/ragna.cpp:63-68 | a name that reads as an `int` is appended to the prefix; any other name is kept |
| Cli.SmallIntNames | src/ragna.cpp:66 | "0" and "12" read as integers |
| Cli.OverflowName | src/ragna.cpp:66 | "2147483648" does not fit `int` and so is no integer |
| Cli.PathsKept | src/ragna.cpp:63-68 | every name containing '/' is used as it is, whatever the prefix |
| Cli.NumbersAppended | src/ragna.cpp:63-68 | every non-empty string of digits whose value fits `int` is appended to the prefix |
| Cli.DeviceNames | src/ragna.cpp:276 | "0" opens /dev/video0 and "12" opens /dev/video12; a path is kept, and so is a number too large for `int` |
| Cli.Dispatch | src/ragna.cpp:226-271 | an option that takes a value is at least two characters long, so its value can be looked for |
| Cli.DiffersAt | src/ragna.cpp:180-188 | an option differing from the argument at some position neither prefixes nor equals it |
| Cli.NotBeforeOpengl | src/ragna.cpp:226-256 | no test before the OpenGL tests claims an argument starting with "--o" |
| Cli.NotAfterOpengl | src/ragna.cpp:261-267 | no test after them claims such an argument |
| Cli.DashDashO | src/ragna.cpp:226-271 | an argument starting with "--o" forces OpenGL ES or OpenGL, or is invalid, by the order of the prefix tests |
| Cli.OpenglRouting | src/ragna.cpp:257-260 | every "--opengles..." forces OpenGL ES; every other "--opengl..." forces OpenGL |
| Cli.StepAt | src/ragna.cpp:226-271 | advancing keeps the index inside the arguments; an argument no test claims fails |
| Cli.HandleOption | src/ragna.cpp:224-271 | one pass of the loop body gives exactly the step the specification gives, and the loop goes on, or stops, accordingly |
| Cli.ScanStops | src/ragna.cpp:223-272 | a failing loop body ends the loop |
| Cli.ScanAdvances | src/ragna.cpp:223-272 | a successful loop body continues after the last argument it consumed |
| Cli.MissingValueStops | src/ragna.cpp:142-165 | an option whose value is missing stops the loop |
| Cli.StringValueStep | src/ragna.cpp:226-248 | a string-valued option sets exactly its own setting from the value |
| Cli.FlagStep | src/ragna.cpp:249-264 | an option without a value sets its flag and consumes no further argument |
| Cli.InvalidStops | src/ragna.cpp:268-270 | an argument no test claims stops the loop |
| Cli.ScanArgs | src/ragna.cpp:223-274 | the option loop method produces exactly the outcome of the loop's specification |
| Cli.ScanNoOptions | src/ragna.cpp:205-219 | with no options the viewer starts with the defaults: device "0" (/dev/video0) and no override |
| Cli.ScanInlineColorspace | src/ragna.cpp:229-232 | `-Cjpeg` sets only the colorspace override, to JPEG |
| Cli.ScanMissingValue | src/ragna.cpp:159-162 | `--device` as the last argument stops the loop |
| Cli.HelpDispatch | src/ragna.cpp:249-251 | `-h` is claimed by the help test |
| Cli.ScanHelpFirst | src/ragna.cpp:249-274 | `-h` followed by options still parses them, then ends with the information-only outcome |
| Cli.QuantDispatch | src/ragna.cpp:245-248 | `--quant=` is claimed by the quantization test |
| Cli.ScanEmptyInline | src/ragna.cpp:151-156 | `--quant=` with an empty value stops the loop before later arguments |
| Cli.FindCode | src/ragna.cpp:291-296 | the scan of a 0-terminated table finds the code exactly when it occurs before the terminator |
| Cli.FindFormat | src/ragna.cpp:287-302 | the device's pixel format is found exactly when `formats[]` lists it |
| Cli.CheckedFormatAccepted | src/ragna.cpp:287-302 | a format that passes the check of `main` is accepted by `setV4LFormat`, whatever the overrides, and one it stops would be rejected |

## Left out

- The OpenGL side is not modelled: shaders, textures, `paintGL`, `initializeGL`, `configureTexture`, `checkError`, the `render_*` and `shader_*` members, and `changeShader`. Rendering is not part of the format logic.
- Promoting the pending buffer to the current one in `paintGL` is not modelled; only `v4l2ReadEvent`'s half of the hand-off is.
- These window and UI members are not modelled: `resizeEvent`, the focus handlers, `keyPressEvent`, `contextMenuEvent`, `mouseDoubleClickEvent`, `toggleFullScreen`, the menu actions and `restoreSize`'s widget resizing. They are Qt UI. `restoreAll` still sets the format again, as `restoreSize` does.
- The verbose printing in `setV4LFormat`, and `showCurrentOverrides`, are not modelled (console output only).
- `usage`, `usageError`, `usageInvParm` and the `printf` of an invalid argument are not modelled; the model keeps only the resulting `return 0`.
- `list_formats` and `parse_pixel_format` use `fcc2s` and `pixfmt2s` from v4l-utils. That code is not part of this model, so neither function is modelled. `--list-formats` still sets the information-only flag.
- `loadFile` (file I/O) is not modelled.
- The rest of `main` after the format check is not modelled: the surface format, the window setup, `reqbufs`/`obtain_bufs`/`queue_all`, `streamon` and the event loop. It is Qt and device I/O. The values the option loop hands over are modelled.
- Opening the device and `has_vid_cap` are not modelled; `g_fmt` is a parameter of the format check and of `SourceChange`.
- `setModeV4L2`'s socket notifiers and event subscription are not modelled; only the device is recorded.
- The `dqevent` loop of `v4l2ExceptionEvent` is not modelled; `SourceChange` is one source-change event.
- `--raw` sets a flag in the settings instead of calling `fd.s_direct(true)`; direct mode belongs to libv4l2, which is not part of this model.
- `Cli.ProcessOptionUInt`: `QString::toUInt(&ok, 0)` is a parameter `toUInt`, because its base-0 number syntax belongs to Qt, which is not part of this model.
- `Cli.GetDeviceName`: `QString::toInt` is modelled as an optional sign, decimal digits and the `int` range. Surrounding white space, which Qt also accepts, is not modelled.
- `Prefs.S2Code`: `QString::toLower` is modelled on ASCII letters only; Unicode case mapping is not modelled.
- `Prefs.S2Code`: `toStdString().c_str()` leaves a pointer into a destroyed temporary (src/ragnaprefs.cpp:53). The model gives the evident meaning: comparing the lower-cased string.
- `Capture.CaptureWin.SetV4LFormat`: the caller's format, which the source changes through a reference, is returned as `applied`.
- `Capture.CaptureWin.UpdateShader`: `setV4LFormat(m_v4l_fmt)` aliases the caller's format with the stored one. Every field is read before it is written, so the model passes a copy and keeps the resolved result.
- `Capture.CaptureWin.ReadEvent`: buffer indices are `nat`s, and the driver's queue is a multiset of indices. Buffer memory and plane sizes are parameters (`BufferQueue`, `Buffer`).
- `Capture.CaptureWin`: the five `m_override*` fields are grouped into one `Overrides` record, and the nine `m_orig*` fields into one `OrigValues` record. `m_viewSize` is not modelled.
- `Capture.CaptureWin.constructor`: fields C++ leaves uninitialised are arbitrary.
- `Cli.IsOption`: a NULL short option compares like an empty string, as a null QString does.
- `Cli.Scan`: the loop's `int i` is a `nat`. The loop never decrements it, and argument counts stay far below 2^31.
