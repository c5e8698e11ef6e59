/** The command line of src/ragna.cpp: the `parse_*` name-to-code functions,
    the option helpers `isOptArg`, `isOption` and `processOption`, the
    device-name rule `getDeviceName`, the option loop of `main` and its
    check that the device's pixel format is in `formats[]`. */
module Cli {
  import opened Wrappers
  import opened Uapi
  import opened PixelFormats
  import opened FormatTable
  import opened ColorResolve
  import Prefs

  /** `parse_colorspace`: the ten colorspace names; 0 for anything else. */
  function ParseColorspace(s: string): (r: u32)
    ensures r == COLORSPACE_DEFAULT || r == COLORSPACE_JPEG || IsRecognizedColorspace(r)
  {
    if s == "smpte170m" then COLORSPACE_SMPTE170M
    else if s == "smpte240m" then COLORSPACE_SMPTE240M
    else if s == "rec709" then COLORSPACE_REC709
    else if s == "470m" then COLORSPACE_470_SYSTEM_M
    else if s == "470bg" then COLORSPACE_470_SYSTEM_BG
    else if s == "jpeg" then COLORSPACE_JPEG
    else if s == "srgb" then COLORSPACE_SRGB
    else if s == "oprgb" then COLORSPACE_OPRGB
    else if s == "bt2020" then COLORSPACE_BT2020
    else if s == "dcip3" then COLORSPACE_DCI_P3
    else 0
  }

  /** `parse_xfer_func`: "default" and the seven transfer-function names; 0
      (XFER_FUNC_DEFAULT) for anything else. */
  function ParseXferFunc(s: string): (r: u32)
    ensures r <= XFER_FUNC_SMPTE2084
  {
    if s == "default" then XFER_FUNC_DEFAULT
    else if s == "smpte240m" then XFER_FUNC_SMPTE240M
    else if s == "rec709" then XFER_FUNC_709
    else if s == "srgb" then XFER_FUNC_SRGB
    else if s == "oprgb" then XFER_FUNC_OPRGB
    else if s == "dcip3" then XFER_FUNC_DCI_P3
    else if s == "smpte2084" then XFER_FUNC_SMPTE2084
    else if s == "none" then XFER_FUNC_NONE
    else 0
  }

  /** `parse_ycbcr`: "default" and the seven encoding names; YCBCR_ENC_DEFAULT
      for anything else. */
  function ParseYcbcr(s: string): (r: u32)
    ensures r <= YCBCR_ENC_SMPTE240M && r != 5
  {
    if s == "default" then YCBCR_ENC_DEFAULT
    else if s == "601" then YCBCR_ENC_601
    else if s == "709" then YCBCR_ENC_709
    else if s == "xv601" then YCBCR_ENC_XV601
    else if s == "xv709" then YCBCR_ENC_XV709
    else if s == "bt2020" then YCBCR_ENC_BT2020
    else if s == "bt2020c" then YCBCR_ENC_BT2020_CONST_LUM
    else if s == "smpte240m" then YCBCR_ENC_SMPTE240M
    else YCBCR_ENC_DEFAULT
  }

  /** `parse_hsv`: "180" and "256"; YCBCR_ENC_DEFAULT for anything else. */
  function ParseHsv(s: string): (r: u32)
    ensures r == YCBCR_ENC_DEFAULT || r == HSV_ENC_180 || r == HSV_ENC_256
    ensures r != YCBCR_ENC_DEFAULT <==> s == "180" || s == "256"
    ensures s == "180" ==> r == HSV_ENC_180
    ensures s == "256" ==> r == HSV_ENC_256
  {
    if s == "default" then YCBCR_ENC_DEFAULT
    else if s == "180" then HSV_ENC_180
    else if s == "256" then HSV_ENC_256
    else YCBCR_ENC_DEFAULT
  }

  /** `parse_quantization`: "full-range" and "lim-range";
      QUANTIZATION_DEFAULT for anything else. */
  function ParseQuantization(s: string): (r: u32)
    ensures r == QUANTIZATION_DEFAULT || r == QUANTIZATION_FULL_RANGE || r == QUANTIZATION_LIM_RANGE
    ensures r == QUANTIZATION_FULL_RANGE <==> s == "full-range"
    ensures r == QUANTIZATION_LIM_RANGE <==> s == "lim-range"
  {
    if s == "default" then QUANTIZATION_DEFAULT
    else if s == "full-range" then QUANTIZATION_FULL_RANGE
    else if s == "lim-range" then QUANTIZATION_LIM_RANGE
    else QUANTIZATION_DEFAULT
  }

  /** The colorspace, transfer-function and Y'CbCr parsers agree with the
      preference tables: each maps a name to the code the table gives it
      (case-sensitively), and every other string to the DEFAULT code. */
  lemma ParseColorspaceTable(s: string)
    ensures ParseColorspace(s) == Prefs.LookupCode(Prefs.ColorspaceTable, s, COLORSPACE_DEFAULT)
  {
    var t := Prefs.ColorspaceTable;
    Prefs.ColorspaceCodes();
    Prefs.ColorspaceNames();
    if i :| 0 <= i < |t| - 1 && t[i].name == Some(s) {
      Prefs.LookupCodeFirst(t, s, COLORSPACE_DEFAULT, i);
    } else {
      Prefs.LookupCodeAbsent(t, s, COLORSPACE_DEFAULT, |t| - 1);
      assert t[0].name != Some(s) && t[1].name != Some(s) && t[2].name != Some(s) && t[3].name != Some(s) && t[4].name != Some(s) && t[5].name != Some(s) && t[6].name != Some(s) && t[7].name != Some(s) && t[8].name != Some(s) && t[9].name != Some(s);
    }
  }

  lemma ParseXferFuncTable(s: string)
    ensures ParseXferFunc(s) == Prefs.LookupCode(Prefs.XferFuncTable, s, XFER_FUNC_DEFAULT)
  {
    var t := Prefs.XferFuncTable;
    Prefs.XferFuncCodes();
    Prefs.XferFuncNames();
    if i :| 0 <= i < |t| - 1 && t[i].name == Some(s) {
      Prefs.LookupCodeFirst(t, s, XFER_FUNC_DEFAULT, i);
    } else {
      Prefs.LookupCodeAbsent(t, s, XFER_FUNC_DEFAULT, |t| - 1);
      assert t[0].name != Some(s) && t[1].name != Some(s) && t[2].name != Some(s) && t[3].name != Some(s) && t[4].name != Some(s) && t[5].name != Some(s) && t[6].name != Some(s);
    }
  }

  lemma ParseYcbcrTable(s: string)
    ensures ParseYcbcr(s) == Prefs.LookupCode(Prefs.YcbcrEncTable, s, YCBCR_ENC_DEFAULT)
  {
    var t := Prefs.YcbcrEncTable;
    Prefs.YcbcrEncCodes();
    Prefs.YcbcrEncNames();
    if i :| 0 <= i < |t| - 1 && t[i].name == Some(s) {
      Prefs.LookupCodeFirst(t, s, YCBCR_ENC_DEFAULT, i);
    } else {
      Prefs.LookupCodeAbsent(t, s, YCBCR_ENC_DEFAULT, |t| - 1);
      assert t[0].name != Some(s) && t[1].name != Some(s) && t[2].name != Some(s) && t[3].name != Some(s) && t[4].name != Some(s) && t[5].name != Some(s) && t[6].name != Some(s);
    }
  }

  /** The quantization names of the command line and of the preference
      table differ: "full-range"/"lim-range" against "full"/"limited". */
  lemma QuantizationNamesDiffer()
    ensures ParseQuantization("full") == QUANTIZATION_DEFAULT
    ensures Prefs.LookupCode(Prefs.QuantizationTable, "full", QUANTIZATION_DEFAULT) == QUANTIZATION_FULL_RANGE
    ensures ParseQuantization("full-range") == QUANTIZATION_FULL_RANGE
    ensures Prefs.LookupCode(Prefs.QuantizationTable, "full-range", QUANTIZATION_DEFAULT) == QUANTIZATION_DEFAULT
  {
    Prefs.QuantizationNames();
    Prefs.LookupCodeAbsent(Prefs.QuantizationTable, "full-range", QUANTIZATION_DEFAULT, 2);
  }

  /** The usage text offers "709" for the transfer function, but only
      "rec709" selects it; any other string, "709" included, is an override
      with XFER_FUNC_DEFAULT, and an unknown colorspace name is an override
      with 0 as well, never "no override". */
  lemma UnknownNamesStillOverride(s: string)
    requires s != "smpte170m" && s != "smpte240m" && s != "rec709" && s != "470m" && s != "470bg"
    requires s != "jpeg" && s != "srgb" && s != "oprgb" && s != "bt2020" && s != "dcip3"
    ensures ParseColorspace(s) == COLORSPACE_DEFAULT != NO_OVERRIDE
    ensures ParseXferFunc("709") == XFER_FUNC_DEFAULT && ParseXferFunc("rec709") == XFER_FUNC_709
    ensures ParseXferFunc(s) == XFER_FUNC_DEFAULT || s == "none" || s == "smpte2084" || s == "default"
  {
  }

  /** `QString::indexOf(c)`: the first position of `c` in `s`, or -1. */
  function IndexOf(s: string, c: char): (r: int)
    ensures -1 <= r < |s|
    ensures r == -1 <==> c !in s
    ensures r >= 0 ==> s[r] == c && c !in s[..r]
  {
    if |s| == 0 then -1
    else if s[0] == c then 0
    else
      var k := IndexOf(s[1..], c);
      if k == -1 then -1
      else
        assert s[..k + 1] == [s[0]] + s[1..][..k];
        k + 1
  }

  /** `isOptArg`: the argument starts with the long option or, when there is
      one, the short option. */
  function IsOptArg(opt: string, longOpt: string, shortOpt: Option<string>): bool
  {
    longOpt <= opt || (shortOpt.Some? && shortOpt.value <= opt)
  }

  /** `isOption`: the argument is the long option or the short option; a
      missing (NULL) short option compares equal to the empty string, as a
      null QString does. */
  function IsOption(opt: string, longOpt: string, shortOpt: Option<string>): bool
  {
    opt == longOpt || opt == shortOpt.GetOr("")
  }

  /** `isOptArg` is a prefix test and `isOption` an exact one: an option
      with anything after it passes the first and fails the second. */
  lemma PrefixAndExact(opt: string, rest: string, longOpt: string, shortOpt: Option<string>)
    requires rest != [] && longOpt != [] && shortOpt.Some?
    requires !(shortOpt.value <= longOpt + rest) || shortOpt.value == []
    ensures IsOptArg(longOpt + rest, longOpt, shortOpt)
    ensures IsOption(opt, longOpt, shortOpt) ==> IsOptArg(opt, longOpt, shortOpt)
    ensures shortOpt.value != [] ==> !IsOption(longOpt + rest, longOpt, shortOpt)
  {
    assert longOpt <= longOpt + rest;
    assert |longOpt + rest| > |longOpt|;
  }

  /** Lines 144-149: where the value of the option `args[i]` starts, less
      one: the first '=' of a long option, position 1 of a short option with
      text after its letter, and -1 when the value is the next argument. */
  function InlineIndex(arg: string): (index: int)
    requires |arg| >= 2
    ensures -1 <= index < |arg|
  {
    if arg[1] == '-' then IndexOf(arg, '=') else if |arg| > 2 then 1 else -1
  }

  /** The value `processOption` takes for the option `args[i]` and the
      index it leaves `i` at; None when the value is missing. */
  function OptionValue(args: seq<string>, i: nat): Option<(string, nat)>
    requires i < |args| && |args[i]| >= 2
  {
    var index := InlineIndex(args[i]);
    if index >= 0 then
      if index + 1 == |args[i]| then None else Some((args[i][index + 1..], i))
    else if i + 1 >= |args| then None
    else Some((args[i + 1], i + 1))
  }

  /** A `--long=value` argument: the value is the text after the FIRST '=',
      `i` stays, and an empty value is missing. */
  lemma LongInlineValue(args: seq<string>, i: nat, k: nat)
    requires i < |args| && |args[i]| >= 2 && args[i][1] == '-'
    requires k < |args[i]| && args[i][k] == '=' && '=' !in args[i][..k]
    ensures OptionValue(args, i) == if k + 1 == |args[i]| then None else Some((args[i][k + 1..], i))
  {
    var arg := args[i];
    assert '=' in arg by { assert arg[k] == '='; }
  }

  /** A short option with text after its letter: the value starts at
      position 2, is never empty, and `i` stays. */
  lemma ShortInlineValue(args: seq<string>, i: nat)
    requires i < |args| && |args[i]| > 2 && args[i][1] != '-'
    ensures OptionValue(args, i) == Some((args[i][2..], i))
  {
  }

  /** Otherwise the value is the next argument and `i` advances by exactly
      one; with no argument left the value is missing. */
  lemma NextArgumentValue(args: seq<string>, i: nat)
    requires i < |args| && |args[i]| >= 2
    requires (args[i][1] == '-' && '=' !in args[i]) || (args[i][1] != '-' && |args[i]| == 2)
    ensures OptionValue(args, i) == if i + 1 < |args| then Some((args[i + 1], i + 1)) else None
  {
  }

  /** `processOption` for a string: the value and the advanced index, or
      failure; on failure `i` is unchanged and `s` is either the empty
      inline value or what it was before. */
  method ProcessOption(args: seq<string>, i: nat, s0: string) returns (ok: bool, i': nat, s: string)
    requires i < |args| && |args[i]| >= 2
    ensures ok ==> OptionValue(args, i) == Some((s, i'))
    ensures !ok ==> OptionValue(args, i) == None
    ensures !ok ==> i' == i && s == (if InlineIndex(args[i]) >= 0 then "" else s0)
  {
    var arg := args[i];
    var index := -1;
    if arg[1] == '-' {
      index := IndexOf(arg, '=');
    } else if |arg| > 2 {
      index := 1;
    }
    assert index == InlineIndex(arg);
    if index >= 0 {
      ok, i', s := index + 1 < |arg|, i, arg[index + 1..];
      if !ok {
        assert s == [];
      }
    } else if i + 1 >= |args| {
      ok, i', s := false, i, s0;
    } else {
      ok, i', s := true, i + 1, args[i + 1];
    }
  }

  /** The value of the unsigned overload: the text's number as `toUInt`
      reads it (`QString::toUInt` with base 0, a given parser here, None
      for text that is no number) and the advanced index. */
  function UIntValue(args: seq<string>, i: nat, toUInt: string -> Option<u32>): Option<(u32, nat)>
    requires i < |args| && |args[i]| >= 2
  {
    match OptionValue(args, i)
    case None => None
    case Some((s, j)) => if toUInt(s).Some? then Some((toUInt(s).value, j)) else None
  }

  /** `processOption` for an unsigned number: fails when the value is
      missing or is no number; a value that is no number still moves `i`
      past it and stores 0. */
  method ProcessOptionUInt(args: seq<string>, i: nat, u0: u32, toUInt: string -> Option<u32>)
    returns (ok: bool, i': nat, u: u32)
    requires i < |args| && |args[i]| >= 2
    ensures ok <==> UIntValue(args, i, toUInt).Some?
    ensures ok ==> (u, i') == UIntValue(args, i, toUInt).value
    ensures OptionValue(args, i).None? ==> i' == i && u == u0
    ensures OptionValue(args, i).Some? ==>
      i' == OptionValue(args, i).value.1 && u == toUInt(OptionValue(args, i).value.0).GetOr(0)
  {
    var s;
    ok, i', s := ProcessOption(args, i, "");
    if !ok {
      return ok, i', u0;
    }
    var parsed := toUInt(s);
    u := parsed.GetOr(0);
    ok := parsed.Some?;
  }

  /** `QString::toInt` in base 10 on text without surrounding white space:
      an optional sign, at least one digit, and a value that fits `int`. */
  predicate IsDigit(c: char) { '0' <= c <= '9' }

  predicate AllDigits(s: string) {
    forall k :: 0 <= k < |s| ==> IsDigit(s[k])
  }

  /** The value of a string of decimal digits. */
  function DigitsValue(s: string): nat
    requires AllDigits(s)
  {
    if |s| == 0 then 0
    else
      assert IsDigit(s[|s| - 1]);
      DigitsValue(s[..|s| - 1]) * 10 + (s[|s| - 1] as int - '0' as int)
  }

  /** The text after an optional leading sign. */
  function Unsigned(s: string): string
  {
    if |s| > 0 && (s[0] == '-' || s[0] == '+') then s[1..] else s
  }

  predicate ParsesAsInt(s: string)
  {
    && |Unsigned(s)| > 0
    && AllDigits(Unsigned(s))
    && (if |s| > 0 && s[0] == '-' then DigitsValue(Unsigned(s)) <= 0x8000_0000
        else DigitsValue(Unsigned(s)) < 0x8000_0000)
  }

  /** Appending a digit multiplies the value by ten and adds the digit. */
  lemma AppendDigit(s: string, c: char)
    requires AllDigits(s) && IsDigit(c)
    ensures AllDigits(s + [c])
    ensures DigitsValue(s + [c]) == DigitsValue(s) * 10 + (c as int - '0' as int)
  {
    assert (s + [c])[..|s|] == s;
  }

  /** Text that starts with neither a sign nor a digit is no integer. */
  lemma NonDigitName(s: string)
    requires |s| > 0 && s[0] != '-' && s[0] != '+' && !IsDigit(s[0])
    ensures !ParsesAsInt(s)
  {
    assert Unsigned(s) == s;
    assert !IsDigit(Unsigned(s)[0]);
  }

  /** `getDeviceName`: a name that reads as an integer is appended to the
      device prefix; any other name is used as it is. */
  function GetDeviceName(dev: string, name: string): (r: string)
    ensures ParsesAsInt(name) ==> r == dev + name
    ensures !ParsesAsInt(name) ==> r == name
  {
    if ParsesAsInt(name) then dev + name else name
  }

  /** "0" and "12" read as integers. */
  lemma SmallIntNames()
    ensures ParsesAsInt("0") && ParsesAsInt("12")
  {
    var e: string := [];
    AppendDigit(e, '0');
    assert Unsigned("0") == e + ['0'];
    AppendDigit(e, '1');
    AppendDigit(e + ['1'], '2');
    assert Unsigned("12") == e + ['1'] + ['2'];
  }

  /** 2^31 does not fit `int`, so "2147483648" is no integer. */
  lemma OverflowName()
    ensures !ParsesAsInt("2147483648")
  {
    var e: string := [];
    AppendDigit(e, '2'); var s1 := e + ['2'];
    AppendDigit(s1, '1'); var s2 := s1 + ['1'];
    AppendDigit(s2, '4'); var s3 := s2 + ['4'];
    AppendDigit(s3, '7'); var s4 := s3 + ['7'];
    AppendDigit(s4, '4'); var s5 := s4 + ['4'];
    AppendDigit(s5, '8'); var s6 := s5 + ['8'];
    AppendDigit(s6, '3'); var s7 := s6 + ['3'];
    AppendDigit(s7, '6'); var s8 := s7 + ['6'];
    AppendDigit(s8, '4'); var s9 := s8 + ['4'];
    AppendDigit(s9, '8'); var s10 := s9 + ['8'];
    assert Unsigned("2147483648") == s10;
  }

  /** The default device "0" opens /dev/video0, a path is kept, and a
      number too large for `int` is taken as a path. */
  lemma DeviceNames()
    ensures GetDeviceName("/dev/video", "0") == "/dev/video0"
    ensures GetDeviceName("/dev/video", "12") == "/dev/video12"
    ensures GetDeviceName("/dev/video", "/dev/video1") == "/dev/video1"
    ensures GetDeviceName("/dev/video", "2147483648") == "2147483648"
  {
    SmallIntNames();
    NonDigitName("/dev/video1");
    OverflowName();
  }

  /** Every name holding a '/' (any path) is used as it is. */
  lemma PathsKept(dev: string, name: string)
    requires '/' in name
    ensures GetDeviceName(dev, name) == name
  {
    var k :| 0 <= k < |name| && name[k] == '/';
    var j := if name[0] == '-' || name[0] == '+' then k - 1 else k;
    assert Unsigned(name)[j] == '/';
  }

  /** Every string of digits whose value fits `int` is appended to the prefix. */
  lemma NumbersAppended(dev: string, name: string)
    requires |name| > 0 && AllDigits(name) && DigitsValue(name) < 0x8000_0000
    ensures GetDeviceName(dev, name) == dev + name
  {
    assert IsDigit(name[0]);
    assert Unsigned(name) == name;
  }

  /** What the option loop does with one argument, in the order `main`
      tests for it. */
  datatype OptionKind =
    | DeviceOpt | ColorspaceOpt | YcbcrEncOpt | HsvEncOpt | XferFuncOpt | QuantOpt
    | HelpOpt | ListFormatsOpt | TimingsOpt | OpenglesOpt | OpenglOpt | VerboseOpt
    | RawOpt | BuffersOpt | InvalidOpt

  /** The options that take a value. */
  predicate TakesValue(k: OptionKind)
  {
    match k
    case DeviceOpt | ColorspaceOpt | YcbcrEncOpt | HsvEncOpt | XferFuncOpt | QuantOpt | BuffersOpt => true
    case _ => false
  }

  /** Lines 226-271: the first test an argument passes. */
  function Dispatch(arg: string): (k: OptionKind)
    ensures TakesValue(k) ==> |arg| >= 2
  {
    if IsOptArg(arg, "--device", Some("-d")) then DeviceOpt
    else if IsOptArg(arg, "--colorspace", Some("-C")) then ColorspaceOpt
    else if IsOptArg(arg, "--ycbcr-enc", Some("-Y")) then YcbcrEncOpt
    else if IsOptArg(arg, "--hsv-enc", Some("-H")) then HsvEncOpt
    else if IsOptArg(arg, "--xfer-func", Some("-X")) then XferFuncOpt
    else if IsOptArg(arg, "--quant", Some("-Q")) then QuantOpt
    else if IsOption(arg, "--help", Some("-h")) then HelpOpt
    else if IsOption(arg, "--list-formats", Some("-l")) then ListFormatsOpt
    else if IsOption(arg, "--timings", Some("-t")) then TimingsOpt
    else if IsOptArg(arg, "--opengles", None) then OpenglesOpt
    else if IsOptArg(arg, "--opengl", None) then OpenglOpt
    else if IsOption(arg, "--verbose", Some("-v")) then VerboseOpt
    else if IsOption(arg, "--raw", Some("-R")) then RawOpt
    else if IsOptArg(arg, "--buffers", Some("-b")) then BuffersOpt
    else InvalidOpt
  }

  /** An option that differs from an argument at some position is neither
      a prefix of it nor equal to it. */
  lemma DiffersAt(p: string, a: string, k: nat)
    requires k < |p| && k < |a| && p[k] != a[k]
    ensures !(p <= a) && p != a
  {
  }

  /** No test before the OpenGL ones claims an argument starting with "--o". */
  lemma NotBeforeOpengl(a: string)
    requires |a| >= 3 && a[1] == '-' && a[2] == 'o'
    ensures !IsOptArg(a, "--device", Some("-d")) && !IsOptArg(a, "--colorspace", Some("-C"))
    ensures !IsOptArg(a, "--ycbcr-enc", Some("-Y")) && !IsOptArg(a, "--hsv-enc", Some("-H"))
    ensures !IsOptArg(a, "--xfer-func", Some("-X")) && !IsOptArg(a, "--quant", Some("-Q"))
    ensures !IsOption(a, "--help", Some("-h")) && !IsOption(a, "--list-formats", Some("-l"))
    ensures !IsOption(a, "--timings", Some("-t"))
  {
    DiffersAt("--device", a, 2); DiffersAt("-d", a, 1);
    DiffersAt("--colorspace", a, 2); DiffersAt("-C", a, 1);
    DiffersAt("--ycbcr-enc", a, 2); DiffersAt("-Y", a, 1);
    DiffersAt("--hsv-enc", a, 2); DiffersAt("-H", a, 1);
    DiffersAt("--xfer-func", a, 2); DiffersAt("-X", a, 1);
    DiffersAt("--quant", a, 2); DiffersAt("-Q", a, 1);
    DiffersAt("--help", a, 2); DiffersAt("-h", a, 1);
    DiffersAt("--list-formats", a, 2); DiffersAt("-l", a, 1);
    DiffersAt("--timings", a, 2); DiffersAt("-t", a, 1);
  }

  /** No test after the OpenGL ones claims an argument starting with "--o". */
  lemma NotAfterOpengl(a: string)
    requires |a| >= 3 && a[1] == '-' && a[2] == 'o'
    ensures !IsOption(a, "--verbose", Some("-v")) && !IsOption(a, "--raw", Some("-R"))
    ensures !IsOptArg(a, "--buffers", Some("-b"))
  {
    DiffersAt("--verbose", a, 2); DiffersAt("-v", a, 1);
    DiffersAt("--raw", a, 2); DiffersAt("-R", a, 1);
    DiffersAt("--buffers", a, 2); DiffersAt("-b", a, 1);
  }

  /** Every argument that starts with "--o" is "--opengles...",
      "--opengl..." or invalid. */
  lemma DashDashO(a: string)
    requires |a| >= 3 && a[1] == '-' && a[2] == 'o'
    ensures Dispatch(a) == if "--opengles" <= a then OpenglesOpt
                           else if "--opengl" <= a then OpenglOpt
                           else InvalidOpt
  {
    NotBeforeOpengl(a);
    NotAfterOpengl(a);
  }

  /** "--opengles" is tested before "--opengl": since both are prefix tests,
      every argument starting with "--opengles" forces OpenGL ES and every
      other argument starting with "--opengl" forces OpenGL. */
  lemma OpenglRouting(rest: string)
    ensures Dispatch("--opengles" + rest) == OpenglesOpt
    ensures !("es" <= rest) ==> Dispatch("--opengl" + rest) == OpenglOpt
  {
    var a := "--opengles" + rest;
    assert "--opengles" <= a by { assert a[..10] == "--opengles"; }
    DashDashO(a);
    var b := "--opengl" + rest;
    assert "--opengl" <= b by { assert b[..8] == "--opengl"; }
    DashDashO(b);
    if "--opengles" <= b {
      assert b[8..10] == "es" == rest[..2];
    }
  }

  /** The settings the option loop collects. */
  datatype Config = Config(
    device: string, buffers: u32, overrides: Overrides, infoOption: bool,
    reportTimings: bool, verbose: bool, raw: bool, forceOpengl: bool, forceOpengles: bool)

  /** Lines 205-219: device "0", four buffers, no override, no flag set. */
  const Defaults := Config("0", 4, NoOverrides, false, false, false, false, false, false)

  /** How the option loop ends: `return 0` on a missing or invalid
      parameter or an invalid argument, `return 0` after --help or
      --list-formats, or on to open the device with the settings. */
  datatype Outcome = Stopped | InfoOnly | Start(config: Config)

  /** One pass of the loop body: failure, or the index of the last argument
      consumed and the updated settings. */
  datatype Step = Fail | Next(last: nat, config: Config)

  /** What an option with a string value sets: the device name, or one
      override parsed from the value. */
  function SetString(k: OptionKind, s: string, c: Config): Config
  {
    match k
    case DeviceOpt => c.(device := s)
    case ColorspaceOpt => c.(overrides := c.overrides.(colorspace := ParseColorspace(s)))
    case YcbcrEncOpt => c.(overrides := c.overrides.(ycbcrEnc := ParseYcbcr(s)))
    case HsvEncOpt => c.(overrides := c.overrides.(hsvEnc := ParseHsv(s)))
    case XferFuncOpt => c.(overrides := c.overrides.(xferFunc := ParseXferFunc(s)))
    case QuantOpt => c.(overrides := c.overrides.(quantization := ParseQuantization(s)))
    case _ => c
  }

  /** What an option without a value sets. */
  function SetFlag(k: OptionKind, c: Config): Config
  {
    match k
    case HelpOpt | ListFormatsOpt => c.(infoOption := true)
    case TimingsOpt => c.(reportTimings := true)
    case OpenglesOpt => c.(forceOpengles := true)
    case OpenglOpt => c.(forceOpengl := true)
    case VerboseOpt => c.(verbose := true)
    case RawOpt => c.(raw := true)
    case _ => c
  }

  /** The loop body on `args[i]`, as a function. */
  function StepAt(args: seq<string>, i: nat, c: Config, toUInt: string -> Option<u32>): (r: Step)
    requires i < |args|
    ensures r.Next? ==> i <= r.last < |args|
    ensures Dispatch(args[i]) == InvalidOpt ==> r == Fail
  {
    var k := Dispatch(args[i]);
    if k == InvalidOpt then Fail
    else if k == BuffersOpt then
      match UIntValue(args, i, toUInt)
      case None => Fail
      case Some((u, j)) => Next(j, c.(buffers := u))
    else if TakesValue(k) then
      match OptionValue(args, i)
      case None => Fail
      case Some((s, j)) => Next(j, SetString(k, s, c))
    else Next(i, SetFlag(k, c))
  }

  /** The option loop from argument `i` on, with settings `c` so far. */
  function ScanFrom(args: seq<string>, i: nat, c: Config, toUInt: string -> Option<u32>): Outcome
    decreases |args| - i, 2
  {
    if i >= |args| then (if c.infoOption then InfoOnly else Start(c))
    else Visit(args, i, c, toUInt)
  }

  /** The option loop at an argument inside the command line.  It is a
      separate step from `Continue` so that unfolding the loop by one
      iteration never exposes the option dispatch of the next one. */
  function Visit(args: seq<string>, i: nat, c: Config, toUInt: string -> Option<u32>): Outcome
    requires i < |args|
    decreases |args| - i, 1
  {
    Continue(args, i, c, toUInt)
  }

  /** One pass of the loop body at argument `i` and the loop after it:
      stopped when the body fails, on after the last argument it consumed
      otherwise. */
  function Continue(args: seq<string>, i: nat, c: Config, toUInt: string -> Option<u32>): Outcome
    requires i < |args|
    decreases |args| - i, 0
  {
    match StepAt(args, i, c, toUInt)
    case Fail => Stopped
    case Next(j, c') => ScanFrom(args, j + 1, c', toUInt)
  }

  /** The option loop of `main`: `args[0]` is the program name. */
  function Scan(args: seq<string>, toUInt: string -> Option<u32>): Outcome
  {
    ScanFrom(args, 1, Defaults, toUInt)
  }

  /** The body of the option loop for the argument at `i`. */
  method HandleOption(args: seq<string>, i: nat, c: Config, toUInt: string -> Option<u32>)
    returns (ok: bool, i': nat, c': Config)
    requires i < |args|
    ensures ok ==> StepAt(args, i, c, toUInt) == Next(i', c')
    ensures !ok ==> StepAt(args, i, c, toUInt) == Fail
    ensures ok ==> ScanFrom(args, i, c, toUInt) == ScanFrom(args, i' + 1, c', toUInt)
    ensures !ok ==> ScanFrom(args, i, c, toUInt) == Stopped
  {
    var arg := args[i];
    var k := Dispatch(arg);
    i', c' := i, c;
    ok := true;
    var s := "";
    if k == DeviceOpt {
      ok, i', s := ProcessOption(args, i, c.device);
      c' := c.(device := s);
    } else if k == ColorspaceOpt {
      ok, i', s := ProcessOption(args, i, s);
      c' := c.(overrides := c.overrides.(colorspace := ParseColorspace(s)));
    } else if k == YcbcrEncOpt {
      ok, i', s := ProcessOption(args, i, s);
      c' := c.(overrides := c.overrides.(ycbcrEnc := ParseYcbcr(s)));
    } else if k == HsvEncOpt {
      ok, i', s := ProcessOption(args, i, s);
      c' := c.(overrides := c.overrides.(hsvEnc := ParseHsv(s)));
    } else if k == XferFuncOpt {
      ok, i', s := ProcessOption(args, i, s);
      c' := c.(overrides := c.overrides.(xferFunc := ParseXferFunc(s)));
    } else if k == QuantOpt {
      ok, i', s := ProcessOption(args, i, s);
      c' := c.(overrides := c.overrides.(quantization := ParseQuantization(s)));
    } else if k == HelpOpt || k == ListFormatsOpt {
      c' := c.(infoOption := true);
    } else if k == TimingsOpt {
      c' := c.(reportTimings := true);
    } else if k == OpenglesOpt {
      c' := c.(forceOpengles := true);
    } else if k == OpenglOpt {
      c' := c.(forceOpengl := true);
    } else if k == VerboseOpt {
      c' := c.(verbose := true);
    } else if k == RawOpt {
      c' := c.(raw := true);
    } else if k == BuffersOpt {
      var u;
      ok, i', u := ProcessOptionUInt(args, i, c.buffers, toUInt);
      c' := c.(buffers := u);
    } else {
      ok := false;
    }
    if ok {
      ScanAdvances(args, i, c, toUInt, i', c');
    } else {
      ScanStops(args, i, c, toUInt);
    }
  }

  /** A failing loop body ends the loop with `return 0`. */
  lemma ScanStops(args: seq<string>, i: nat, c: Config, toUInt: string -> Option<u32>)
    requires i < |args| && StepAt(args, i, c, toUInt) == Fail
    ensures ScanFrom(args, i, c, toUInt) == Stopped
  {
    assert Visit(args, i, c, toUInt) == Continue(args, i, c, toUInt);
  }

  /** A successful loop body goes on after the last argument it consumed. */
  lemma ScanAdvances(args: seq<string>, i: nat, c: Config, toUInt: string -> Option<u32>, last: nat, c': Config)
    requires i < |args| && StepAt(args, i, c, toUInt) == Next(last, c')
    ensures ScanFrom(args, i, c, toUInt) == ScanFrom(args, last + 1, c', toUInt)
  {
    assert Visit(args, i, c, toUInt) == Continue(args, i, c, toUInt);
  }

  /** An option whose value is missing stops the loop. */
  lemma MissingValueStops(args: seq<string>, i: nat, c: Config, toUInt: string -> Option<u32>)
    requires i < |args| && TakesValue(Dispatch(args[i])) && OptionValue(args, i).None?
    ensures ScanFrom(args, i, c, toUInt) == Stopped
  {
    assert StepAt(args, i, c, toUInt) == Fail;
    ScanStops(args, i, c, toUInt);
  }

  /** An option with a string value sets its setting from the value and the
      loop goes on after the value. */
  lemma StringValueStep(args: seq<string>, i: nat, c: Config, toUInt: string -> Option<u32>, s: string, j: nat)
    requires i < |args| && TakesValue(Dispatch(args[i])) && Dispatch(args[i]) != BuffersOpt
    requires OptionValue(args, i) == Some((s, j))
    ensures StepAt(args, i, c, toUInt) == Next(j, SetString(Dispatch(args[i]), s, c))
  {
  }

  /** An option without a value sets its flag and the loop goes on with the
      next argument. */
  lemma FlagStep(args: seq<string>, i: nat, c: Config, toUInt: string -> Option<u32>)
    requires i < |args| && !TakesValue(Dispatch(args[i])) && Dispatch(args[i]) != InvalidOpt
    ensures StepAt(args, i, c, toUInt) == Next(i, SetFlag(Dispatch(args[i]), c))
  {
  }

  /** An argument that no test claims stops the loop. */
  lemma InvalidStops(args: seq<string>, i: nat, c: Config, toUInt: string -> Option<u32>)
    requires i < |args| && Dispatch(args[i]) == InvalidOpt
    ensures ScanFrom(args, i, c, toUInt) == Stopped
  {
    ScanStops(args, i, c, toUInt);
  }

  /** Lines 223-274: the option loop, stopping at the first failure. */
  method ScanArgs(args: seq<string>, toUInt: string -> Option<u32>) returns (outcome: Outcome)
    ensures outcome == Scan(args, toUInt)
  {
    var c := Defaults;
    var i := 1;
    while i < |args|
      invariant ScanFrom(args, i, c, toUInt) == Scan(args, toUInt)
      decreases |args| - i
    {
      var ok, last, c' := HandleOption(args, i, c, toUInt);
      if !ok {
        return Stopped;
      }
      i, c := last + 1, c';
    }
    if c.infoOption {
      return InfoOnly;
    }
    return Start(c);
  }

  /** With no options every override is "no override" and the device is
      /dev/video0. */
  lemma ScanNoOptions(toUInt: string -> Option<u32>)
    ensures Scan(["ragna"], toUInt) == Start(Defaults)
    ensures Defaults.overrides == NoOverrides
    ensures GetDeviceName("/dev/video", Defaults.device) == "/dev/video0"
  {
    DeviceNames();
  }

  /** A short option with its value attached sets only its own setting. */
  lemma ScanInlineColorspace(toUInt: string -> Option<u32>)
    ensures Scan(["ragna", "-Cjpeg"], toUInt)
      == Start(Defaults.(overrides := NoOverrides.(colorspace := COLORSPACE_JPEG)))
  {
    var a := ["ragna", "-Cjpeg"];
    DiffersAt("--device", a[1], 1);
    DiffersAt("-d", a[1], 1);
    assert Dispatch(a[1]) == ColorspaceOpt by { assert "-C" <= a[1]; }
    ShortInlineValue(a, 1);
    assert a[1][2..] == "jpeg";
    StringValueStep(a, 1, Defaults, toUInt, "jpeg", 1);
    ScanAdvances(a, 1, Defaults, toUInt, 1, SetString(ColorspaceOpt, "jpeg", Defaults));
  }

  /** An option whose value is missing stops the program. */
  lemma ScanMissingValue(toUInt: string -> Option<u32>)
    ensures Scan(["ragna", "--device"], toUInt) == Stopped
  {
    var b := ["ragna", "--device"];
    assert Dispatch(b[1]) == DeviceOpt by { assert "--device" <= b[1]; }
    assert '=' !in b[1] by {
      assert b[1] == "--device";
    }
    NextArgumentValue(b, 1);
    MissingValueStops(b, 1, Defaults, toUInt);
  }

  /** The dispatch of "-h": no earlier test claims it. */
  lemma HelpDispatch()
    ensures Dispatch("-h") == HelpOpt
  {
    var h := "-h";
    DiffersAt("-d", h, 1); DiffersAt("-C", h, 1); DiffersAt("-Y", h, 1);
    DiffersAt("-H", h, 1); DiffersAt("-X", h, 1); DiffersAt("-Q", h, 1);
  }

  /** --help makes the run informational even when a device follows. */
  lemma ScanHelpFirst(toUInt: string -> Option<u32>)
    ensures Scan(["ragna", "-h", "-d", "1"], toUInt) == InfoOnly
  {
    var c := ["ragna", "-h", "-d", "1"];
    HelpDispatch();
    FlagStep(c, 1, Defaults, toUInt);
    var cfg := Defaults.(infoOption := true);
    ScanAdvances(c, 1, Defaults, toUInt, 1, cfg);
    assert Dispatch(c[2]) == DeviceOpt by { assert "-d" <= c[2]; }
    NextArgumentValue(c, 2);
    StringValueStep(c, 2, cfg, toUInt, "1", 3);
    ScanAdvances(c, 2, cfg, toUInt, 3, cfg.(device := "1"));
  }

  /** The dispatch of "--quant=": no earlier test claims it. */
  lemma QuantDispatch()
    ensures Dispatch("--quant=") == QuantOpt
  {
    var d := "--quant=";
    DiffersAt("--device", d, 2); DiffersAt("-d", d, 1);
    DiffersAt("--colorspace", d, 2); DiffersAt("-C", d, 1);
    DiffersAt("--ycbcr-enc", d, 2); DiffersAt("-Y", d, 1);
    DiffersAt("--hsv-enc", d, 2); DiffersAt("-H", d, 1);
    DiffersAt("--xfer-func", d, 2); DiffersAt("-X", d, 1);
    assert "--quant" <= d;
  }

  /** An empty value after '=' is a missing value, so a later --help is
      never reached. */
  lemma ScanEmptyInline(toUInt: string -> Option<u32>)
    ensures Scan(["ragna", "--quant=", "-h"], toUInt) == Stopped
  {
    var d := ["ragna", "--quant=", "-h"];
    QuantDispatch();
    LongInlineValue(d, 1, 7);
    MissingValueStops(d, 1, Defaults, toUInt);
  }

  /** The scan of a 0-terminated code table: whether `pf` occurs before
      the terminator at `n`. */
  method FindCode(table: seq<u32>, n: nat, pf: u32) returns (found: bool)
    requires n < |table| && table[n] == 0
    requires forall j :: 0 <= j < n ==> table[j] != 0
    ensures found <==> pf in table[..n]
  {
    found := false;
    var i := 0;
    while table[i] != 0
      invariant 0 <= i <= n
      invariant pf !in table[..i]
      decreases n - i
    {
      if pf == table[i] {
        found := true;
        assert table[..n][i] == pf;
        return;
      }
      assert table[..i + 1] == table[..i] + [table[i]];
      i := i + 1;
    }
    assert table[..n] == table[..i];
  }

  /** Lines 287-302: whether the device's pixel format `pf` is in
      `formats[]`, scanning up to the 0 terminator. */
  method FindFormat(pf: u32) returns (found: bool)
    ensures found <==> Listed(pf)
  {
    TableShape();
    found := FindCode(FormatTable.FormatTable(), |Formats|, pf);
    ListedInTable(pf);
  }

  /** The check of lines 287-302 is what `setV4LFormat` needs: a format it
      lets through is accepted, whatever the overrides, and one it stops
      would be rejected. */
  lemma CheckedFormatAccepted(f: Format, o: Overrides, maps: DefaultMaps)
    ensures Listed(f.pixelFormat) <==> SetFormat(f, o, maps).Accepted?
  {
    SetFormatRejectsUnlisted(f, o, maps);
  }
}
