/** The preference tables of src/ragnaprefs.cpp: four sentinel-terminated
    tables pairing a colorimetry code with its name, the two table scans
    `s2code` and `code2s`, and the `RagnaPrefs` object whose four fields
    the `read_*` methods set. */
module Prefs {
  import opened Wrappers
  import opened Uapi

  /** `table_entry`: a code and its name; a missing name (`NULL`) ends a table. */
  datatype TableEntry = TableEntry(code: u32, name: Option<string>)

  type Table = seq<TableEntry>

  /** The `{0, NULL}` entry that ends every table. */
  const Terminator := TableEntry(0, None)

  const ColorspaceTable: Table := [
    TableEntry(COLORSPACE_SMPTE170M, Some("smpte170m")),
    TableEntry(COLORSPACE_SMPTE240M, Some("smpte240m")),
    TableEntry(COLORSPACE_REC709, Some("rec709")),
    TableEntry(COLORSPACE_470_SYSTEM_M, Some("470m")),
    TableEntry(COLORSPACE_470_SYSTEM_BG, Some("470bg")),
    TableEntry(COLORSPACE_JPEG, Some("jpeg")),
    TableEntry(COLORSPACE_SRGB, Some("srgb")),
    TableEntry(COLORSPACE_OPRGB, Some("oprgb")),
    TableEntry(COLORSPACE_BT2020, Some("bt2020")),
    TableEntry(COLORSPACE_DCI_P3, Some("dcip3")),
    Terminator]

  const XferFuncTable: Table := [
    TableEntry(XFER_FUNC_SMPTE240M, Some("smpte240m")),
    TableEntry(XFER_FUNC_709, Some("rec709")),
    TableEntry(XFER_FUNC_SRGB, Some("srgb")),
    TableEntry(XFER_FUNC_OPRGB, Some("oprgb")),
    TableEntry(XFER_FUNC_DCI_P3, Some("dcip3")),
    TableEntry(XFER_FUNC_SMPTE2084, Some("smpte2084")),
    TableEntry(XFER_FUNC_NONE, Some("none")),
    Terminator]

  const YcbcrEncTable: Table := [
    TableEntry(YCBCR_ENC_601, Some("601")),
    TableEntry(YCBCR_ENC_709, Some("709")),
    TableEntry(YCBCR_ENC_XV601, Some("xv601")),
    TableEntry(YCBCR_ENC_XV709, Some("xv709")),
    TableEntry(YCBCR_ENC_BT2020, Some("bt2020")),
    TableEntry(YCBCR_ENC_BT2020_CONST_LUM, Some("bt2020c")),
    TableEntry(YCBCR_ENC_SMPTE240M, Some("smpte240m")),
    Terminator]

  const QuantizationTable: Table := [
    TableEntry(QUANTIZATION_FULL_RANGE, Some("full")),
    TableEntry(QUANTIZATION_LIM_RANGE, Some("limited")),
    Terminator]

  /** The four settings a table exists for. */
  datatype Setting = Colorspace | XferFunc | YcbcrEnc | Quantization

  function TableOf(k: Setting): Table
  {
    match k
    case Colorspace => ColorspaceTable
    case XferFunc => XferFuncTable
    case YcbcrEnc => YcbcrEncTable
    case Quantization => QuantizationTable
  }

  /** The value a `read_*` method falls back to: the setting's `*_DEFAULT`. */
  function DefaultOf(k: Setting): u32
  {
    match k
    case Colorspace => COLORSPACE_DEFAULT
    case XferFunc => XFER_FUNC_DEFAULT
    case YcbcrEnc => YCBCR_ENC_DEFAULT
    case Quantization => QUANTIZATION_DEFAULT
  }

  /** The name `code2s` gives a code no entry has. */
  const DefaultName := "default"

  /** A table as both scans need it: named entries ended by the terminator. */
  predicate Terminated(t: Table)
  {
    && |t| > 0 && t[|t| - 1] == Terminator
    && forall i :: 0 <= i < |t| - 1 ==> t[i].name.Some?
  }

  /** No named entry repeats the code of an earlier one. */
  predicate DistinctCodes(t: Table)
  {
    forall i, j :: 0 <= j < i < |t| - 1 ==> t[i].code != t[j].code
  }

  /** No named entry repeats the name of an earlier one. */
  predicate DistinctNames(t: Table)
  {
    forall i, j :: 0 <= j < i < |t| - 1 ==> t[i].name != t[j].name
  }

  /** ASCII lower-casing of one character. */
  function Lower(c: char): char
  {
    if 'A' <= c <= 'Z' then (c as int - 'A' as int + 'a' as int) as char else c
  }

  /** ASCII upper-casing of one character. */
  function Upper(c: char): char
  {
    if 'a' <= c <= 'z' then (c as int - 'a' as int + 'A' as int) as char else c
  }

  /** `QString::toLower`, on ASCII letters. */
  function LowerStr(s: string): string
  {
    seq(|s|, i requires 0 <= i < |s| => Lower(s[i]))
  }

  /** `QString::toUpper`, on ASCII letters. */
  function UpperStr(s: string): string
  {
    seq(|s|, i requires 0 <= i < |s| => Upper(s[i]))
  }

  /** The scan of `s2code`: the code of the first entry named `s`, the scan
      ending at the first entry without a name; `v` when none matches. */
  function LookupCode(t: Table, s: string, v: u32): u32
  {
    if |t| == 0 || t[0].name.None? then v
    else if t[0].name.value == s then t[0].code
    else LookupCode(t[1..], s, v)
  }

  /** The scan of `code2s`: the name of the first entry with code `c`, the
      scan ending at the first entry without a name; "default" when none
      matches. */
  function LookupName(t: Table, c: u32): string
  {
    if |t| == 0 || t[0].name.None? then DefaultName
    else if t[0].code == c then t[0].name.value
    else LookupName(t[1..], c)
  }

  /** `s2code`: lower-cases `s` and scans the table up to its terminator
      for an entry of that name; the default `v` when there is none. */
  method S2Code(table: Table, s: string, v: u32) returns (r: u32)
    requires Terminated(table)
    ensures r == LookupCode(table, LowerStr(s), v)
  {
    var str := LowerStr(s);
    r := v;
    var i := 0;
    while table[i].name.Some?
      invariant 0 <= i < |table|
      invariant r == v
      invariant LookupCode(table, str, v) == LookupCode(table[i..], str, v)
      decreases |table| - i
    {
      if table[i].name.value == str {
        r := table[i].code;
        break;
      }
      i := i + 1;
    }
  }

  /** `code2s`: scans the table up to its terminator for an entry with code
      `v`; "default" when there is none. */
  method Code2S(table: Table, v: u32) returns (s: string)
    requires Terminated(table)
    ensures s == LookupName(table, v)
  {
    s := DefaultName;
    var i := 0;
    while table[i].name.Some?
      invariant 0 <= i < |table|
      invariant s == DefaultName
      invariant LookupName(table, v) == LookupName(table[i..], v)
      decreases |table| - i
    {
      if v == table[i].code {
        s := table[i].name.value;
        break;
      }
      i := i + 1;
    }
  }

  /** `s2code` returns the code of the FIRST entry named `s`. */
  lemma {:induction false} LookupCodeFirst(t: Table, s: string, v: u32, i: nat)
    requires i < |t| && t[i].name == Some(s)
    requires forall j :: 0 <= j < i ==> t[j].name.Some? && t[j].name != Some(s)
    ensures LookupCode(t, s, v) == t[i].code
    decreases i
  {
    if i > 0 {
      LookupCodeFirst(t[1..], s, v, i - 1);
    }
  }

  /** `s2code` returns the default when no entry before the first one
      without a name is named `s`. */
  lemma {:induction false} LookupCodeAbsent(t: Table, s: string, v: u32, n: nat)
    requires n <= |t| && (n < |t| ==> t[n].name.None?)
    requires forall j :: 0 <= j < n ==> t[j].name.Some? && t[j].name != Some(s)
    ensures LookupCode(t, s, v) == v
    decreases n
  {
    if n > 0 {
      LookupCodeAbsent(t[1..], s, v, n - 1);
    }
  }

  /** `code2s` returns the name of the FIRST entry with code `c`. */
  lemma {:induction false} LookupNameFirst(t: Table, c: u32, i: nat)
    requires i < |t| && t[i].name.Some? && t[i].code == c
    requires forall j :: 0 <= j < i ==> t[j].name.Some? && t[j].code != c
    ensures LookupName(t, c) == t[i].name.value
    decreases i
  {
    if i > 0 {
      LookupNameFirst(t[1..], c, i - 1);
    }
  }

  /** `code2s` returns "default" when no entry before the first one without
      a name has code `c`. */
  lemma {:induction false} LookupNameAbsent(t: Table, c: u32, n: nat)
    requires n <= |t| && (n < |t| ==> t[n].name.None?)
    requires forall j :: 0 <= j < n ==> t[j].name.Some? && t[j].code != c
    ensures LookupName(t, c) == DefaultName
    decreases n
  {
    if n > 0 {
      LookupNameAbsent(t[1..], c, n - 1);
    }
  }

  /** Both scans stop at the terminator: whatever follows it is never read,
      and the terminator's own code 0 is never matched. */
  lemma {:induction false} ScansStopAtTerminator(t: Table, rest: Table, s: string, c: u32, v: u32)
    requires Terminated(t)
    ensures LookupCode(t + rest, s, v) == LookupCode(t, s, v)
    ensures LookupName(t + rest, c) == LookupName(t, c)
    decreases |t|
  {
    assert (t + rest)[0] == t[0];
    if |t| > 1 {
      assert (t + rest)[1..] == t[1..] + rest;
      ScansStopAtTerminator(t[1..], rest, s, c, v);
    }
  }

  /** On a terminated table without repeated codes or names, the two scans
      are inverse on the table's entries. */
  lemma RoundTrip(t: Table, i: nat, v: u32)
    requires Terminated(t) && DistinctCodes(t) && DistinctNames(t) && i < |t| - 1
    ensures LookupCode(t, t[i].name.value, v) == t[i].code
    ensures LookupName(t, t[i].code) == t[i].name.value
    ensures LookupName(t, LookupCode(t, t[i].name.value, v)) == t[i].name.value
    ensures LookupCode(t, LookupName(t, t[i].code), v) == t[i].code
  {
    LookupCodeFirst(t, t[i].name.value, v, i);
    LookupNameFirst(t, t[i].code, i);
  }

  /** A name without upper-case ASCII letters. */
  predicate LowerName(s: string)
  {
    forall i :: 0 <= i < |s| ==> !('A' <= s[i] <= 'Z')
  }

  /** The codes of a table: terminated, distinct and never the setting's
      DEFAULT code. */
  predicate CodesWellFormed(t: Table, default: u32)
  {
    && Terminated(t) && DistinctCodes(t)
    && forall i :: 0 <= i < |t| - 1 ==> t[i].code != default
  }

  /** The names of a table: distinct, lower case and never "default". */
  predicate NamesWellFormed(t: Table)
  {
    && DistinctNames(t)
    && forall i :: 0 <= i < |t| - 1 ==>
         t[i].name.Some? && LowerName(t[i].name.value) && t[i].name != Some(DefaultName)
  }

  /** The properties all four tables have. */
  predicate WellFormed(t: Table, default: u32)
  {
    CodesWellFormed(t, default) && NamesWellFormed(t)
  }

  lemma ColorspaceCodes()
    ensures CodesWellFormed(ColorspaceTable, COLORSPACE_DEFAULT)
  {
  }

  lemma ColorspaceNames()
    ensures NamesWellFormed(ColorspaceTable)
  {
  }

  lemma XferFuncCodes()
    ensures CodesWellFormed(XferFuncTable, XFER_FUNC_DEFAULT)
  {
  }

  lemma XferFuncNames()
    ensures NamesWellFormed(XferFuncTable)
  {
  }

  lemma YcbcrEncCodes()
    ensures CodesWellFormed(YcbcrEncTable, YCBCR_ENC_DEFAULT)
  {
  }

  lemma YcbcrEncNames()
    ensures NamesWellFormed(YcbcrEncTable)
  {
  }

  lemma QuantizationCodes()
    ensures CodesWellFormed(QuantizationTable, QUANTIZATION_DEFAULT)
  {
  }

  lemma QuantizationNames()
    ensures NamesWellFormed(QuantizationTable)
  {
  }

  /** The four tables are well formed. */
  lemma TableFacts(k: Setting)
    ensures WellFormed(TableOf(k), DefaultOf(k))
  {
    match k
    case Colorspace => ColorspaceCodes(); ColorspaceNames();
    case XferFunc => XferFuncCodes(); XferFuncNames();
    case YcbcrEnc => YcbcrEncCodes(); YcbcrEncNames();
    case Quantization => QuantizationCodes(); QuantizationNames();
  }

  /** A lower-case name is its own lower-case form. */
  lemma LowerNameFixed(s: string)
    requires LowerName(s)
    ensures LowerStr(s) == s
  {
  }

  /** Lower-casing forgets case: an upper-cased string looks up as the
      string itself. */
  lemma LowerUpper(s: string)
    ensures LowerStr(UpperStr(s)) == LowerStr(s)
    ensures LowerStr(LowerStr(s)) == LowerStr(s)
  {
    assert forall i :: 0 <= i < |s| ==> Lower(Upper(s[i])) == Lower(s[i]);
  }

  /** Every name of every table is accepted in any case and gives back its
      code; that code is rendered as the same name. */
  lemma SettingRoundTrip(k: Setting, i: nat, s: string)
    requires i < |TableOf(k)| - 1 && LowerStr(s) == TableOf(k)[i].name.value
    ensures LookupCode(TableOf(k), LowerStr(s), DefaultOf(k)) == TableOf(k)[i].code
    ensures LookupCode(TableOf(k), LowerStr(UpperStr(s)), DefaultOf(k)) == TableOf(k)[i].code
    ensures LookupName(TableOf(k), TableOf(k)[i].code) == TableOf(k)[i].name.value
  {
    TableFacts(k);
    LowerUpper(s);
    RoundTrip(TableOf(k), i, DefaultOf(k));
  }

  /** A string that names no entry reads as the setting's DEFAULT code,
      which `*2s` renders as "default" and which reads back as itself. */
  lemma UnknownReadsDefault(k: Setting, s: string)
    requires forall i :: 0 <= i < |TableOf(k)| - 1 ==> TableOf(k)[i].name != Some(LowerStr(s))
    ensures LookupCode(TableOf(k), LowerStr(s), DefaultOf(k)) == DefaultOf(k)
    ensures LookupName(TableOf(k), DefaultOf(k)) == DefaultName
    ensures LookupCode(TableOf(k), DefaultName, DefaultOf(k)) == DefaultOf(k)
  {
    TableFacts(k);
    var t := TableOf(k);
    LookupCodeAbsent(t, LowerStr(s), DefaultOf(k), |t| - 1);
    LookupNameAbsent(t, DefaultOf(k), |t| - 1);
    LookupCodeAbsent(t, DefaultName, DefaultOf(k), |t| - 1);
  }

  /** `RagnaPrefs`: the four preferred colorimetry settings. */
  class RagnaPrefs {
    var colorspace: u32
    var xferFunc: u32
    var ycbcrEnc: u32
    var quantization: u32

    constructor()
    {
    }

    /** `read_colorspace`: the colorspace named by `s`, or COLORSPACE_DEFAULT. */
    method ReadColorspace(s: string)
      modifies this`colorspace
      ensures colorspace == LookupCode(ColorspaceTable, LowerStr(s), COLORSPACE_DEFAULT)
    {
      TableFacts(Colorspace);
      colorspace := S2Code(ColorspaceTable, s, COLORSPACE_DEFAULT);
    }

    /** `read_quantization`: the quantization named by `s`, or QUANTIZATION_DEFAULT. */
    method ReadQuantization(s: string)
      modifies this`quantization
      ensures quantization == LookupCode(QuantizationTable, LowerStr(s), QUANTIZATION_DEFAULT)
    {
      TableFacts(Quantization);
      quantization := S2Code(QuantizationTable, s, QUANTIZATION_DEFAULT);
    }

    /** `read_xfer_func`: the transfer function named by `s`, or XFER_FUNC_DEFAULT. */
    method ReadXferFunc(s: string)
      modifies this`xferFunc
      ensures xferFunc == LookupCode(XferFuncTable, LowerStr(s), XFER_FUNC_DEFAULT)
    {
      TableFacts(XferFunc);
      xferFunc := S2Code(XferFuncTable, s, XFER_FUNC_DEFAULT);
    }

    /** `read_ycbcr`: the Y'CbCr encoding named by `s`, or YCBCR_ENC_DEFAULT. */
    method ReadYcbcr(s: string)
      modifies this`ycbcrEnc
      ensures ycbcrEnc == LookupCode(YcbcrEncTable, LowerStr(s), YCBCR_ENC_DEFAULT)
    {
      TableFacts(YcbcrEnc);
      ycbcrEnc := S2Code(YcbcrEncTable, s, YCBCR_ENC_DEFAULT);
    }

    static method Colorspace2S(v: u32) returns (s: string)
      ensures s == LookupName(ColorspaceTable, v)
    {
      TableFacts(Colorspace);
      s := Code2S(ColorspaceTable, v);
    }

    static method Quantization2S(v: u32) returns (s: string)
      ensures s == LookupName(QuantizationTable, v)
    {
      TableFacts(Quantization);
      s := Code2S(QuantizationTable, v);
    }

    static method XferFunc2S(v: u32) returns (s: string)
      ensures s == LookupName(XferFuncTable, v)
    {
      TableFacts(XferFunc);
      s := Code2S(XferFuncTable, v);
    }

    static method Ycbcr2S(v: u32) returns (s: string)
      ensures s == LookupName(YcbcrEncTable, v)
    {
      TableFacts(YcbcrEnc);
      s := Code2S(YcbcrEncTable, v);
    }
  }
}
