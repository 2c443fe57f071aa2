/** The waveform C-code generator: the template builder
    (`__generate_waveform_lut_template`) and the parameter derivation and
    substitution of `generate_waveform_lut_c`. The sine table itself, the
    time stamp and the counter size `f_sys / f_rpt` are inputs; the files are
    returned as line lists instead of being written. */
module WaveformLutGenerator {
  import opened Wrappers
  import opened PyStr
  import opened Translater

  /** The three lists the template builder returns. */
  datatype TemplateLists = TemplateLists(head: seq<string>, func: seq<string>, params: seq<string>)

  function UseOption(doFullOpt: bool): (r: string)
    ensures r == "OPT" <==> doFullOpt
  {
    if doFullOpt then "OPT" else "FULL"
  }

  /** A template line: literal text with `{$key}` placeholders. */
  function Plain(text: string): Template
  {
    Template(text, [])
  }

  /** The keys of the parameter dictionary. */
  const ParamKeys: set<string> := {
    "datetime_created", "path2include", "template_name", "device_id", "datatype_cnt",
    "datatype_int", "num_cntsize", "num_lutsine", "lut_offset", "lut_data", "lut_type" }

  /** A well-formed line whose placeholders all name dictionary keys. */
  predicate LineOk(t: Template)
  {
    WellFormed(t) && forall j :: 0 <= j < |t.slots| ==> t.slots[j].key in ParamKeys
  }

  /** The two halves of `LineOk`, each established on its own. */
  lemma LineOkOf(t: Template)
    requires WellFormed(t)
    requires forall j :: 0 <= j < |t.slots| ==> t.slots[j].key in ParamKeys
    ensures LineOk(t)
  {
  }

  /** No dictionary key holds a brace. */
  lemma KeyPlain(k: string)
    requires k in ParamKeys
    ensures '{' !in k && '}' !in k
  {
    if k == "datetime_created" {
    } else if k == "path2include" {
    } else if k == "template_name" {
    } else if k == "device_id" {
    } else if k == "datatype_cnt" {
    } else if k == "datatype_int" {
    } else if k == "num_cntsize" {
    } else if k == "num_lutsine" {
    } else if k == "lut_offset" {
    } else if k == "lut_data" {
    } else {
      assert k == "lut_type";
    }
  }

  /** Slots naming dictionary keys, with brace-free text, are plain. */
  lemma SlotsOkOf(slots: seq<Slot>)
    requires forall j :: 0 <= j < |slots| ==> slots[j].key in ParamKeys && '{' !in slots[j].text
    ensures PlainSlots(slots)
  {
    forall j | 0 <= j < |slots|
      ensures '{' !in slots[j].key && '}' !in slots[j].key
    {
      KeyPlain(slots[j].key);
    }
  }

  lemma BraceFreeConcat(a: string, b: string)
    requires '{' !in a && '{' !in b
    ensures '{' !in a + b
  {
    forall i | 0 <= i < |a + b|
      ensures (a + b)[i] != '{'
    {
      if i < |a| {
        assert (a + b)[i] == a[i];
      } else {
        assert (a + b)[i] == b[i - |a|];
      }
    }
  }

  // One function per template line.

  function BannerLine(useOption: string): Template
  {
    var text := "// --- Generating a Waveform LUT Caller (" + useOption + ")";
    Plain(text)
  }

  function CopyrightLine(): Template
  {
    Plain("// Copyright @ UDE-IES")
  }

  function CreatedLine(): Template
  {
    Template("// Code generated on: ", [Slot("datetime_created", "")])
  }

  function ParamsLine(): Template
  {
    Plain("// Params: ")
  }

  function IdLine(): Template
  {
    Template("// \tID = ", [Slot("device_id", ",")])
  }

  function TypesLine(): Template
  {
    Plain("// \tdatatypes (data, counter),")
  }

  function IncludeLine(): Template
  {
    Template("# include \"", [Slot("path2include", "/"), Slot("template_name", "\"")])
  }

  function ProtoLine(): Template
  {
    Template("DEF_NEW_WAVEFORM_LUT_PROTO(",
      [Slot("device_id", ", "), Slot("datatype_int", ", "), Slot("datatype_cnt", ")")])
  }

  function LutSizeLine(): Template
  {
    Template("// \tN_LUT = ", [Slot("num_lutsine", "")])
  }

  function OffsetLine(): Template
  {
    Template("// \tOffset = ", [Slot("lut_offset", "")])
  }

  function OrderLine(): Template
  {
    Plain("// \t Used LUT data order (a_0, a_1, ... a_N)")
  }

  /** The six arguments of the instantiating macro. */
  function ImplSlots(): seq<Slot>
  {
    [Slot("device_id", ", "), Slot("datatype_int", ", "), Slot("datatype_cnt", ", "),
     Slot("num_lutsine", ", "), Slot("lut_offset", ", "), Slot("lut_data", ")")]
  }

  function ImplLine(useOption: string): Template
  {
    Template("DEF_NEW_WAVEFORM_LUT_" + useOption + "_IMPL(", ImplSlots())
  }

  lemma BannerLineOk(useOption: string)
    requires '{' !in useOption
    ensures LineOk(BannerLine(useOption))
  {
    var prefix := "// --- Generating a Waveform LUT Caller (";
    assert '{' !in prefix;
    BraceFreeConcat(useOption, ")");
    BraceFreeConcat(prefix, useOption + ")");
    assert prefix + useOption + ")" == prefix + (useOption + ")");
    LineOkOf(BannerLine(useOption));
  }

  lemma CopyrightLineOk()
    ensures LineOk(CopyrightLine())
  {
    LineOkOf(CopyrightLine());
  }

  lemma CreatedLineOk()
    ensures LineOk(CreatedLine())
  {
    var t := CreatedLine();
    SlotsOkOf(t.slots);
    LineOkOf(t);
  }

  lemma ParamsLineOk()
    ensures LineOk(ParamsLine())
  {
    LineOkOf(ParamsLine());
  }

  lemma IdLineOk()
    ensures LineOk(IdLine())
  {
    var t := IdLine();
    SlotsOkOf(t.slots);
    LineOkOf(t);
  }

  lemma TypesLineOk()
    ensures LineOk(TypesLine())
  {
    LineOkOf(TypesLine());
  }

  lemma IncludeLineOk()
    ensures LineOk(IncludeLine())
  {
    var t := IncludeLine();
    SlotsOkOf(t.slots);
    LineOkOf(t);
  }

  lemma ProtoLineOk()
    ensures LineOk(ProtoLine())
  {
    var t := ProtoLine();
    SlotsOkOf(t.slots);
    LineOkOf(t);
  }

  lemma LutSizeLineOk()
    ensures LineOk(LutSizeLine())
  {
    var t := LutSizeLine();
    SlotsOkOf(t.slots);
    LineOkOf(t);
  }

  lemma OffsetLineOk()
    ensures LineOk(OffsetLine())
  {
    var t := OffsetLine();
    SlotsOkOf(t.slots);
    LineOkOf(t);
  }

  lemma OrderLineOk()
    ensures LineOk(OrderLine())
  {
    LineOkOf(OrderLine());
  }

  lemma ImplSlotsOk()
    ensures PlainSlots(ImplSlots())
    ensures forall j :: 0 <= j < |ImplSlots()| ==> ImplSlots()[j].key in ParamKeys
  {
    ImplSlotsPlain();
    ImplSlotsKeys();
  }

  lemma ImplSlotsPlain()
    ensures PlainSlots(ImplSlots())
  {
    ImplSlotsKeys();
    var s := ImplSlots();
    forall i | 0 <= i < |s|
      ensures '{' !in s[i].text && '{' !in s[i].key && '}' !in s[i].key
    {
      KeyPlain(s[i].key);
      ImplSlotText(s[i]);
    }
  }

  lemma ImplSlotText(sl: Slot)
    requires sl in ImplSlots()
    ensures '{' !in sl.text
  {
    assert sl.text == ", " || sl.text == ")";
  }

  lemma ImplSlotsKeys()
    ensures forall j :: 0 <= j < |ImplSlots()| ==> ImplSlots()[j].key in ParamKeys
  {
  }

  lemma ImplLineOk(useOption: string)
    requires '{' !in useOption
    ensures LineOk(ImplLine(useOption))
  {
    var prefix := "DEF_NEW_WAVEFORM_LUT_";
    assert '{' !in prefix;
    BraceFreeConcat(useOption, "_IMPL(");
    BraceFreeConcat(prefix, useOption + "_IMPL(");
    assert prefix + useOption + "_IMPL(" == prefix + (useOption + "_IMPL(");
    ImplSlotsOk();
    LineOkOf(ImplLine(useOption));
  }

  /** Every template line is well formed and names only dictionary keys. */
  lemma LinesOk(useOption: string)
    requires '{' !in useOption
    ensures forall i :: 0 <= i < |HeadTemplates(useOption)| ==> LineOk(HeadTemplates(useOption)[i])
    ensures forall i :: 0 <= i < |FuncTemplates(useOption)| ==> LineOk(FuncTemplates(useOption)[i])
  {
    BannerLineOk(useOption);
    CopyrightLineOk();
    CreatedLineOk();
    ParamsLineOk();
    IdLineOk();
    TypesLineOk();
    IncludeLineOk();
    ProtoLineOk();
    LutSizeLineOk();
    OffsetLineOk();
    OrderLineOk();
    ImplLineOk(useOption);
  }

  /** The eight header lines. */
  function HeadTemplates(useOption: string): (r: seq<Template>)
  {
    [BannerLine(useOption), CopyrightLine(), CreatedLine(), ParamsLine(), IdLine(), TypesLine(),
     IncludeLine(), ProtoLine()]
  }

  /** The eleven source lines. */
  function FuncTemplates(useOption: string): (r: seq<Template>)
  {
    [BannerLine(useOption), CopyrightLine(), CreatedLine(), ParamsLine(), IdLine(), TypesLine(),
     LutSizeLine(), OffsetLine(), OrderLine(), IncludeLine(), ImplLine(useOption)]
  }

  function RenderAll(ts: seq<Template>): (r: seq<string>)
    ensures |r| == |ts|
  {
    seq(|ts|, i requires 0 <= i < |ts| => Render(ts[i]))
  }

  /** `__generate_waveform_lut_template(do_full_opt)`; each line is written as its
      literal text and placeholders. */
  function GenerateWaveformLutTemplate(doFullOpt: bool): TemplateLists
  {
    var useOption := UseOption(doFullOpt);
    TemplateLists(RenderAll(HeadTemplates(useOption)), RenderAll(FuncTemplates(useOption)), [])
  }

  /** The header's last line is the prototype macro applied to the three
      placeholders `{$device_id}`, `{$datatype_int}` and `{$datatype_cnt}`. */
  lemma PrototypeLineText(doFullOpt: bool)
    ensures GenerateWaveformLutTemplate(doFullOpt).head[7]
            == "DEF_NEW_WAVEFORM_LUT_PROTO(" + Placeholder("device_id") + ", " + Placeholder("datatype_int")
               + ", " + Placeholder("datatype_cnt") + ")"
  {
    var s := ProtoLine().slots;
    var a, b, c := Placeholder("device_id"), Placeholder("datatype_int"), Placeholder("datatype_cnt");
    assert GenerateWaveformLutTemplate(doFullOpt).head[7] == Render(ProtoLine());
    assert RenderSlots(s[3..], {}, map[]) == "";
    assert RenderSlots(s[2..], {}, map[]) == c + (")" + "");
    assert RenderSlots(s[1..], {}, map[]) == b + (", " + (c + ")"));
    assert RenderSlots(s, {}, map[]) == a + (", " + (b + (", " + (c + ")"))));
  }

  /** A rendered line starts with its literal head. */
  lemma RenderStartsWithHead(t: Template)
    ensures |t.head| <= |Render(t)| && Render(t)[..|t.head|] == t.head
  {
  }

  /** The option string appears in the first line of both lists and in the
      name of the instantiating macro; the lists have 8 and 11 lines and the
      parameter list is empty. */
  lemma TemplateShape(doFullOpt: bool)
    ensures var t := GenerateWaveformLutTemplate(doFullOpt);
            && |t.head| == 8 && |t.func| == 11 && t.params == []
            && t.head[0] == t.func[0] == "// --- Generating a Waveform LUT Caller (" + UseOption(doFullOpt) + ")"
            && |t.func[10]| >= 21 + |UseOption(doFullOpt)| + 6
            && t.func[10][..21 + |UseOption(doFullOpt)| + 6]
               == "DEF_NEW_WAVEFORM_LUT_" + UseOption(doFullOpt) + "_IMPL("
  {
    var opt := UseOption(doFullOpt);
    var t := GenerateWaveformLutTemplate(doFullOpt);
    RenderStartsWithHead(FuncTemplates(opt)[10]);
    assert t.head[0] == Render(Plain("// --- Generating a Waveform LUT Caller (" + opt + ")"));
  }

  // ------------------------------------------------------------------
  // Parameter derivation
  // ------------------------------------------------------------------

  /** ASCII `str.upper()` / `str.lower()`. */
  function UpperAscii(s: string): (r: string)
    ensures |r| == |s|
  {
    seq(|s|, i requires 0 <= i < |s| => if 'a' <= s[i] <= 'z' then (s[i] as int - 32) as char else s[i])
  }

  function LowerAscii(s: string): (r: string)
    ensures |r| == |s|
  {
    seq(|s|, i requires 0 <= i < |s| => if 'A' <= s[i] <= 'Z' then (s[i] as int + 32) as char else s[i])
  }

  /** `device_id if device_id else '0'`. */
  function ModuleIdUsed(deviceId: string): (r: string)
    ensures |r| > 0
    ensures deviceId != "" ==> r == deviceId
  {
    if deviceId != "" then deviceId else "0"
  }

  /** `int(datatype.split('int')[-1].split('_')[0])`. */
  function BitwidthOf(typeName: string): Result<nat>
  {
    var afterInt := Split(typeName, "int");
    ParseNat(Split(afterInt[|afterInt| - 1], "_")[0])
  }

  /** The width parsed back out of a rendered type name is the width put in. */
  lemma BitwidthRoundTrip(width: nat, outSigned: bool)
    ensures BitwidthOf(DatatypeName(width, outSigned)) == Ok(width)
  {
    var prefix := if outSigned then "" else "u";
    var digits := DecimalString(width);
    assert forall i :: 0 <= i < |digits| ==> digits[i] != 'i' && digits[i] != '_';
    assert DatatypeName(width, outSigned) == prefix + "int" + (digits + "_t");
    SplitAfterPlain(prefix, "int", digits + "_t");
    SplitPlain(digits + "_t", "int");
    assert digits + "_t" == digits + "_" + "t";
    SplitAfterPlain(digits, "_", "t");
    DecimalRoundTrip(width);
  }

  function Pow2(n: nat): (r: nat)
    ensures r >= 1
  {
    if n == 0 then 1 else 2 * Pow2(n - 1)
  }

  lemma {:induction false} Pow2Add(a: nat, b: nat)
    ensures Pow2(a + b) == Pow2(a) * Pow2(b)
    decreases a
  {
    if a > 0 {
      Pow2Add(a - 1, b);
    }
  }

  lemma Pow2Table()
    ensures Pow2(8) == 256 && Pow2(16) == 65536
    ensures Pow2(32) == 4294967296 && Pow2(64) == 18446744073709551616
  {
    assert Pow2(4) == 16;
    Pow2Add(4, 4);
    Pow2Add(8, 8);
    Pow2Add(16, 16);
    Pow2Add(32, 32);
  }

  /** `lut_offset`: 0 for signed tables, 2^(width-1) for unsigned ones. */
  function LutOffset(outSigned: bool, bitwidthMcu: nat): nat
    requires bitwidthMcu >= 1
  {
    if outSigned then 0 else Pow2(bitwidthMcu - 1)
  }

  /** The unsigned offset is the midpoint of the unsigned range. */
  lemma LutOffsetMidScale(bitwidthMcu: nat)
    requires bitwidthMcu >= 1
    ensures 2 * LutOffset(false, bitwidthMcu) == Pow2(bitwidthMcu)
    ensures LutOffset(true, bitwidthMcu) == 0
  {
  }

  /** `str(v)` for any integer. */
  function IntString(v: int): string
  {
    if v < 0 then "-" + DecimalString(-v) else DecimalString(v)
  }

  /** `', '.join(parts)`. */
  function Join(parts: seq<string>, sep: string): string
    decreases |parts|
  {
    if |parts| == 0 then ""
    else if |parts| == 1 then parts[0]
    else parts[0] + sep + Join(parts[1..], sep)
  }

  /** The counter type width for a table of `size` entries:
      `get_embedded_datatype(log2(size), False)` compares log2(size) with
      8, 16, 32, 64, i.e. size with 2^8, 2^16, 2^32, 2^64. log2(0) is -inf,
      which leaves no candidate. */
  function CounterWidth(size: nat): (r: Result<nat>)
    ensures r.Ok? <==> 1 <= size <= Pow2(64)
    ensures r.Ok? ==> r.value in BitCompare && size <= Pow2(r.value)
    ensures r.Ok? ==> forall w :: w in BitCompare && w < r.value ==> Pow2(w) < size
  {
    Pow2Table();
    if size == 0 then Err(IndexError)
    else if size <= Pow2(8) then Ok(8)
    else if size <= Pow2(16) then Ok(16)
    else if size <= Pow2(32) then Ok(32)
    else if size <= Pow2(64) then Ok(64)
    else Err(IndexError)
  }

  /** The derived values that are not plain inputs. */
  datatype Derived = Derived(bitwidthMcu: nat, datatypeInt: string, datatypeCnt: string)

  /** The derived values `generate_waveform_lut_c` computes for a valid bit
      size and table length: the data width and type from the bit size, the
      counter type from the table length. The source parses the width back out
      of the type name; `BitwidthRoundTrip` shows that gives the width chosen. */
  function DerivedOf(bitsizeLut: int, size: nat, outSigned: bool): (r: Derived)
    requires 0 <= bitsizeLut <= 64 && 1 <= size <= Pow2(64)
    ensures r.bitwidthMcu in BitCompare && bitsizeLut <= r.bitwidthMcu
    ensures r.datatypeInt == DatatypeName(r.bitwidthMcu, outSigned)
    ensures r.datatypeCnt == DatatypeName(CounterWidth(size).value, false)
  {
    var w := EmbeddedWidth(bitsizeLut as real).value;
    Derived(w, DatatypeName(w, outSigned), DatatypeName(CounterWidth(size).value, false))
  }

  /** Line i of `out` is line i of `lines` with the placeholders filled from `params`. */
  predicate Substituted(out: seq<string>, lines: seq<string>, params: map<string, string>)
  {
    |out| == |lines| && forall i :: 0 <= i < |lines| ==> out[i] == SubstLine(lines[i], params)
  }

  /** The dictionary `generate_waveform_lut_c` fills for valid inputs. */
  function GeneratedParams(bitsizeLut: int, numCntSize: int, lutData: seq<int>, datetimeCreated: string,
                           outSigned: bool, deviceId: string, definePath: string): (r: map<string, string>)
    requires 0 <= bitsizeLut <= 64 && 1 <= |lutData| <= Pow2(64)
    ensures r.Keys == ParamKeys
    ensures r["template_name"] == "waveform_lut_template.h"
  {
    Params(datetimeCreated, definePath, ModuleIdUsed(deviceId), DerivedOf(bitsizeLut, |lutData|, outSigned),
           numCntSize, lutData, outSigned)
  }

  /** The dictionary of `generate_waveform_lut_c`. */
  function Params(datetimeCreated: string, definePath: string, moduleId: string, d: Derived,
                  numCntSize: int, lutData: seq<int>, outSigned: bool): (r: map<string, string>)
    requires d.bitwidthMcu >= 1
    ensures r.Keys == ParamKeys
  {
    map[
      "datetime_created" := datetimeCreated,
      "path2include" := definePath,
      "device_id" := UpperAscii(moduleId),
      "datatype_cnt" := d.datatypeCnt,
      "datatype_int" := d.datatypeInt,
      "num_cntsize" := IntString(numCntSize),
      "num_lutsine" := DecimalString(|lutData|),
      "lut_offset" := DecimalString(LutOffset(outSigned, d.bitwidthMcu)),
      "lut_data" := Join(seq(|lutData|, i requires 0 <= i < |lutData| => IntString(lutData[i])), ", "),
      "lut_type" := "sinusoidal",
      "template_name" := "waveform_lut_template.h"
    ]
  }

  /** What the generator produces: the copied template header's name and the
      two generated files, each as a name and its lines. */
  datatype GeneratedFiles = GeneratedFiles(
    templateName: string,
    headerName: string, headerLines: seq<string>,
    sourceName: string, sourceLines: seq<string>)

  /** Text without `{` (so without a `{$` placeholder opener). */
  predicate NoBrace(s: string)
  {
    '{' !in s
  }

  /** A fully substituted well-formed line holds no `{`. */
  lemma {:induction false} FilledSlotsPlain(slots: seq<Slot>, params: map<string, string>)
    requires PlainSlots(slots) && PlainValues(params)
    requires forall j :: 0 <= j < |slots| ==> slots[j].key in params
    ensures (set j | 0 <= j < |slots| :: slots[j].key) <= params.Keys
    ensures NoBrace(RenderSlots(slots, set j | 0 <= j < |slots| :: slots[j].key, params))
    decreases |slots|
  {
    var all := set j | 0 <= j < |slots| :: slots[j].key;
    if |slots| > 0 {
      var rest := slots[1..];
      var allRest := set j | 0 <= j < |rest| :: rest[j].key;
      FilledSlotsPlain(rest, params);
      assert slots[0].key in all;
      forall j | 0 <= j < |rest|
        ensures rest[j].key in allRest <==> rest[j].key in all
      {
        assert rest[j].key == slots[j + 1].key;
      }
      RenderSlotsSameKeys(rest, allRest, all, params);
    }
  }

  /** Substituting a dictionary that covers every key of a well-formed line
      leaves no placeholder opener. */
  lemma SubstCoveredPlain(t: Template, params: map<string, string>)
    requires WellFormed(t) && PlainValues(params)
    requires forall j :: 0 <= j < |t.slots| ==> t.slots[j].key in params
    ensures !Contains(SubstLine(Render(t), params), Open)
  {
    SubstTemplate(t, params);
    var all := set j | 0 <= j < |t.slots| :: t.slots[j].key;
    FilledSlotsPlain(t.slots, params);
    assert Known(t, params) == all;
    NotContainsWithout(SubstLine(Render(t), params), Open, '{');
  }

  lemma {:induction false} JoinPlain(parts: seq<string>, sep: string)
    requires NoBrace(sep) && forall i :: 0 <= i < |parts| ==> NoBrace(parts[i])
    ensures NoBrace(Join(parts, sep))
    decreases |parts|
  {
    if |parts| > 1 {
      JoinPlain(parts[1..], sep);
    }
  }

  lemma DatatypeNamePlain(width: nat, outSigned: bool)
    ensures NoBrace(DatatypeName(width, outSigned))
  {
    var prefix := if outSigned then "" else "u";
    var digits := DecimalString(width);
    assert NoBrace(prefix + "int");
    assert NoBrace(digits);
    BraceFreeConcat(prefix + "int", digits);
    BraceFreeConcat(prefix + "int" + digits, "_t");
  }

  lemma UpperPlain(s: string)
    requires NoBrace(s)
    ensures NoBrace(UpperAscii(s))
  {
    var u := UpperAscii(s);
    forall i | 0 <= i < |u|
      ensures u[i] != '{'
    {
      assert s[i] != '{';
    }
  }

  /** With time stamp, include path and id free of `{`, every dictionary value is. */
  lemma ParamsPlain(datetimeCreated: string, definePath: string, moduleId: string, d: Derived,
                    numCntSize: int, lutData: seq<int>, outSigned: bool)
    requires NoBrace(datetimeCreated) && NoBrace(definePath) && NoBrace(moduleId)
    requires NoBrace(d.datatypeInt) && NoBrace(d.datatypeCnt) && d.bitwidthMcu >= 1
    ensures PlainValues(Params(datetimeCreated, definePath, moduleId, d, numCntSize, lutData, outSigned))
  {
    var parts := seq(|lutData|, i requires 0 <= i < |lutData| => IntString(lutData[i]));
    JoinPlain(parts, ", ");
    UpperPlain(moduleId);
  }

  /** `generate_waveform_lut_c(...)` without the file output: the datatype
      choice can raise IndexError (bit size outside [0, 64], or an empty or
      oversized table). */
  method GenerateWaveformLutC(bitsizeLut: int, numCntSize: int, lutData: seq<int>, datetimeCreated: string,
                              outSigned: bool, doOptimized: bool, deviceId: string, fileName: string,
                              definePath: string)
    returns (r: Result<GeneratedFiles>)
    ensures r.Ok? <==> 0 <= bitsizeLut <= 64 && 1 <= |lutData| <= Pow2(64)
    ensures r.Ok? ==> r.value.headerName == fileName + LowerAscii(ModuleIdUsed(deviceId)) + ".h"
    ensures r.Ok? ==> r.value.sourceName == fileName + LowerAscii(ModuleIdUsed(deviceId)) + ".c"
    ensures r.Ok? ==> |r.value.headerLines| == 8 && |r.value.sourceLines| == 11
    ensures r.Ok? && NoBrace(datetimeCreated) && NoBrace(definePath) && NoBrace(deviceId) ==>
              (forall i :: 0 <= i < 8 ==> !Contains(r.value.headerLines[i], Open))
              && (forall i :: 0 <= i < 11 ==> !Contains(r.value.sourceLines[i], Open))
    ensures r.Ok? ==>
              var params := GeneratedParams(bitsizeLut, numCntSize, lutData, datetimeCreated,
                                            outSigned, deviceId, definePath);
              r.value.templateName == "waveform_lut_template.h"
              && Substituted(r.value.headerLines, GenerateWaveformLutTemplate(doOptimized).head, params)
              && Substituted(r.value.sourceLines, GenerateWaveformLutTemplate(doOptimized).func, params)
  {
    var moduleIdUsed := ModuleIdUsed(deviceId);
    var datatypeDataExt := GetEmbeddedDatatype(bitsizeLut as real, outSigned);
    if datatypeDataExt.Err? {
      return Err(datatypeDataExt.error);
    }
    var template := GenerateWaveformLutTemplate(doOptimized);
    var cnt := CounterWidth(|lutData|);
    if cnt.Err? {
      return Err(cnt.error);
    }
    var params := GeneratedParams(bitsizeLut, numCntSize, lutData, datetimeCreated, outSigned, deviceId, definePath);
    var head := ReplaceVariablesWithParameters(template.head, params);
    var func := ReplaceVariablesWithParameters(template.func, params);
    assert Substituted(head, template.head, params);
    assert Substituted(func, template.func, params);
    r := Ok(GeneratedFiles(params["template_name"],
                           fileName + LowerAscii(moduleIdUsed) + ".h", head,
                           fileName + LowerAscii(moduleIdUsed) + ".c", func));
    if NoBrace(datetimeCreated) && NoBrace(definePath) && NoBrace(deviceId) {
      GeneratedParamsPlain(bitsizeLut, numCntSize, lutData, datetimeCreated, outSigned, deviceId, definePath);
      NoPlaceholdersLeft(doOptimized, params);
    }
  }

  /** With time stamp, include path and id free of `{`, the generator's
      dictionary has no `{` in any value. */
  lemma GeneratedParamsPlain(bitsizeLut: int, numCntSize: int, lutData: seq<int>, datetimeCreated: string,
                             outSigned: bool, deviceId: string, definePath: string)
    requires 0 <= bitsizeLut <= 64 && 1 <= |lutData| <= Pow2(64)
    requires NoBrace(datetimeCreated) && NoBrace(definePath) && NoBrace(deviceId)
    ensures PlainValues(GeneratedParams(bitsizeLut, numCntSize, lutData, datetimeCreated, outSigned, deviceId, definePath))
  {
    var d := DerivedOf(bitsizeLut, |lutData|, outSigned);
    DatatypeNamePlain(d.bitwidthMcu, outSigned);
    DatatypeNamePlain(CounterWidth(|lutData|).value, false);
    ParamsPlain(datetimeCreated, definePath, ModuleIdUsed(deviceId), d, numCntSize, lutData, outSigned);
  }

  /** Every placeholder of the template is a dictionary key, so substitution with
      values free of `{` leaves no `{$` in either file. */
  lemma NoPlaceholdersLeft(doFullOpt: bool, params: map<string, string>)
    requires params.Keys == ParamKeys
    ensures PlainValues(params) ==>
              (forall i :: 0 <= i < 8 ==>
                 !Contains(SubstLine(GenerateWaveformLutTemplate(doFullOpt).head[i], params), Open))
              && (forall i :: 0 <= i < 11 ==>
                 !Contains(SubstLine(GenerateWaveformLutTemplate(doFullOpt).func[i], params), Open))
  {
    if PlainValues(params) {
      var opt := UseOption(doFullOpt);
      assert '{' !in opt;
      LinesOk(opt);
      var heads, funcs := HeadTemplates(opt), FuncTemplates(opt);
      forall i | 0 <= i < 8
        ensures !Contains(SubstLine(GenerateWaveformLutTemplate(doFullOpt).head[i], params), Open)
      {
        assert LineOk(heads[i]);
        SubstCoveredPlain(heads[i], params);
      }
      forall i | 0 <= i < 11
        ensures !Contains(SubstLine(GenerateWaveformLutTemplate(doFullOpt).func[i], params), Open)
      {
        assert LineOk(funcs[i]);
        SubstCoveredPlain(funcs[i], params);
      }
    }
  }

  lemma HeadProtoLine(doFullOpt: bool)
    ensures GenerateWaveformLutTemplate(doFullOpt).head[7] == Render(ProtoLine())
  {
  }

  const ProtoKeys: set<string> := {"device_id", "datatype_int", "datatype_cnt"}

  lemma ProtoKnown(params: map<string, string>)
    requires ProtoKeys <= params.Keys
    ensures Known(ProtoLine(), params) == ProtoKeys
  {
    var s := ProtoLine().slots;
    assert s[0].key == "device_id";
    assert s[1].key == "datatype_int";
    assert s[2].key == "datatype_cnt";
  }

  lemma ProtoRender(params: map<string, string>)
    requires ProtoKeys <= params.Keys
    ensures RenderSlots(ProtoLine().slots, ProtoKeys, params)
            == params["device_id"] + (", " + (params["datatype_int"] + (", " + (params["datatype_cnt"] + ")"))))
  {
    var s := ProtoLine().slots;
    var a, b, c := params["device_id"], params["datatype_int"], params["datatype_cnt"];
    assert RenderSlots(s[3..], ProtoKeys, params) == "";
    assert RenderSlots(s[2..], ProtoKeys, params) == c + (")" + "");
    assert RenderSlots(s[1..], ProtoKeys, params) == b + (", " + (c + ")"));
  }

  /** The generated prototype line is the prototype macro applied to the id and
      the two type names from the dictionary. */
  lemma PrototypeLine(doFullOpt: bool, params: map<string, string>)
    requires params.Keys == ParamKeys && PlainValues(params)
    ensures SubstLine(GenerateWaveformLutTemplate(doFullOpt).head[7], params)
            == "DEF_NEW_WAVEFORM_LUT_PROTO("
               + (params["device_id"] + (", " + (params["datatype_int"] + (", " + (params["datatype_cnt"] + ")")))))
  {
    var t := ProtoLine();
    ProtoLineOk();
    HeadProtoLine(doFullOpt);
    assert ProtoKeys <= ParamKeys;
    SubstTemplate(t, params);
    ProtoKnown(params);
    ProtoRender(params);
  }

  /** An empty id becomes `0`; the dictionary carries the upper-cased id and the
      file names the lower-cased one. */
  lemma IdHandling(deviceId: string)
    ensures ModuleIdUsed("") == "0"
    ensures UpperAscii("abc") == "ABC" && LowerAscii("ABC") == "abc"
    ensures forall i :: 0 <= i < |deviceId| && 'a' <= deviceId[i] <= 'z' ==>
              UpperAscii(deviceId)[i] != deviceId[i] && LowerAscii(UpperAscii(deviceId))[i] == deviceId[i]
    ensures forall i :: 0 <= i < |deviceId| && !('a' <= deviceId[i] <= 'z') ==> UpperAscii(deviceId)[i] == deviceId[i]
  {
  }
}
