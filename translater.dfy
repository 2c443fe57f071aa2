/** The C-generator helpers: choosing a C integer type wide enough for a bit
    count, and substituting `{$key}` placeholders in template lines. */
module Translater {
  import opened Wrappers
  import opened PyStr

  /** The candidate widths, in the order they are tried. */
  const BitCompare: seq<nat> := [8, 16, 32, 64]

  /** The per-candidate test `(bit_compare / bits_used) - 1 >= 0`. Dividing by a
      zero bit count gives +inf in numpy, so every candidate passes then. */
  predicate Fits(width: nat, bitsUsed: real)
  {
    if bitsUsed == 0.0 then true else (width as real) / bitsUsed - 1.0 >= 0.0
  }

  /** For a positive bit count the test is `width >= bits_used`; for a negative
      one no candidate passes. */
  lemma FitsMeaning(width: nat, bitsUsed: real)
    requires width > 0
    ensures bitsUsed > 0.0 ==> (Fits(width, bitsUsed) <==> bitsUsed <= width as real)
    ensures bitsUsed < 0.0 ==> !Fits(width, bitsUsed)
  {
    var w := width as real;
    if bitsUsed > 0.0 {
      assert (w / bitsUsed) * bitsUsed == w;
      if w / bitsUsed >= 1.0 {
        assert (w / bitsUsed) * bitsUsed >= 1.0 * bitsUsed;
      } else {
        assert (w / bitsUsed) * bitsUsed < 1.0 * bitsUsed;
      }
    } else if bitsUsed < 0.0 {
      assert (w / bitsUsed) * bitsUsed == w;
      assert w / bitsUsed < 0.0;
    }
  }

  /** `argwhere(...)[0]`: the index of the first candidate that passes, from index i. */
  function FirstFit(bitsUsed: real, i: nat): Result<nat>
    requires i <= |BitCompare|
    decreases |BitCompare| - i
  {
    if i == |BitCompare| then Err(IndexError)
    else if Fits(BitCompare[i], bitsUsed) then Ok(i)
    else FirstFit(bitsUsed, i + 1)
  }

  /** The width `get_embedded_datatype` settles on: the smallest of 8, 16, 32, 64
      that holds `bits_used` (non-integral counts round up; a zero count gives 8).
      A count above 64 or below 0 leaves no candidate and raises IndexError. */
  function EmbeddedWidth(bitsUsed: real): (r: Result<nat>)
    ensures r.Ok? <==> 0.0 <= bitsUsed <= 64.0
    ensures r.Ok? ==> r.value in BitCompare && bitsUsed <= r.value as real
    ensures r.Ok? ==> forall w :: w in BitCompare && w < r.value ==> (w as real) < bitsUsed
  {
    FitsMeaning(8, bitsUsed);
    FitsMeaning(16, bitsUsed);
    FitsMeaning(32, bitsUsed);
    FitsMeaning(64, bitsUsed);
    match FirstFit(bitsUsed, 0)
    case Ok(i) => Ok(BitCompare[i])
    case Err(e) => Err(e)
  }

  /** The C type name `[u]int<width>_t`. */
  function DatatypeName(width: nat, outSigned: bool): string
  {
    (if outSigned then "" else "u") + "int" + DecimalString(width) + "_t"
  }

  /** `get_embedded_datatype(bits_used, out_signed)`. */
  function GetEmbeddedDatatype(bitsUsed: real, outSigned: bool): (r: Result<string>)
    ensures r.Ok? <==> 0.0 <= bitsUsed <= 64.0
    ensures r.Ok? ==> r.value == DatatypeName(EmbeddedWidth(bitsUsed).value, outSigned)
    ensures r.Ok? ==> (r.value[0] == 'u' <==> !outSigned)
  {
    match EmbeddedWidth(bitsUsed)
    case Ok(w) => Ok(DatatypeName(w, outSigned))
    case Err(e) => Err(e)
  }

  // ------------------------------------------------------------------
  // Placeholder substitution
  // ------------------------------------------------------------------

  const Open: string := "{$"

  /** The text `{$key}`. */
  function Placeholder(key: string): string
  {
    Open + key + "}"
  }

  /** The keys the line names, in order: for every piece after the first of
      `line.split('{$')`, the text before its first `}`. */
  function PlaceholderKeys(line: string): (r: seq<string>)
  {
    var pieces := Split(line, Open);
    seq(|pieces| - 1, i requires 0 <= i < |pieces| - 1 => Split(pieces[i + 1], "}")[0])
  }

  /** One substitution step: replace every `{$key}` by the parameter value, when
      the key is a parameter. */
  function ReplaceKey(line: string, key: string, params: map<string, string>): string
  {
    if key in params then Replace(line, Placeholder(key), params[key]) else line
  }

  /** The substitution steps for `keys`, applied in order. */
  function ApplyKeys(line: string, keys: seq<string>, params: map<string, string>): string
    decreases |keys|
  {
    if |keys| == 0 then line
    else ReplaceKey(ApplyKeys(line, keys[..|keys| - 1], params), keys[|keys| - 1], params)
  }

  /** What one input line becomes. */
  function SubstLine(line: string, params: map<string, string>): string
  {
    if !Contains(line, Open) then line else ApplyKeys(line, PlaceholderKeys(line), params)
  }

  /** `replace_variables_with_parameters(string_input, parameters)`; the inner
      search over `parameters.items()` for an equal key is a dictionary lookup. */
  method ReplaceVariablesWithParameters(stringInput: seq<string>, parameters: map<string, string>)
    returns (stringOutput: seq<string>)
    ensures |stringOutput| == |stringInput|
    ensures forall i :: 0 <= i < |stringInput| ==> stringOutput[i] == SubstLine(stringInput[i], parameters)
    ensures forall i :: 0 <= i < |stringInput| && !Contains(stringInput[i], Open) ==> stringOutput[i] == stringInput[i]
  {
    stringOutput := [];
    for n := 0 to |stringInput|
      invariant |stringOutput| == n
      invariant forall i :: 0 <= i < n ==> stringOutput[i] == SubstLine(stringInput[i], parameters)
    {
      var line := stringInput[n];
      var usedLine: string;
      if !Contains(line, Open) {
        usedLine := line;
      } else {
        var overviewSplit := Split(line, Open);
        ghost var keys := PlaceholderKeys(line);
        usedLine := line;
        for j := 1 to |overviewSplit|
          invariant usedLine == ApplyKeys(line, keys[..j - 1], parameters)
        {
          var paramSearch := Split(overviewSplit[j], "}")[0];
          if paramSearch in parameters {
            usedLine := Replace(usedLine, Placeholder(paramSearch), parameters[paramSearch]);
          }
          assert keys[..j] == keys[..j - 1] + [paramSearch];
          assert keys[..j][..j - 1] == keys[..j - 1];
        }
        assert keys[..|overviewSplit| - 1] == keys;
      }
      stringOutput := stringOutput + [usedLine];
    }
  }

  // ------------------------------------------------------------------
  // What substitution does to a well-formed template line
  // ------------------------------------------------------------------

  /** A placeholder followed by the literal text up to the next placeholder. */
  datatype Slot = Slot(key: string, text: string)

  /** A template line: literal head, then placeholders each followed by text. */
  datatype Template = Template(head: string, slots: seq<Slot>)

  /** The line with the placeholders whose key is in `filled` replaced by
      their parameter value and the others left as `{$key}`. */
  function RenderSlots(slots: seq<Slot>, filled: set<string>, params: map<string, string>): string
    requires filled <= params.Keys
    decreases |slots|
  {
    if |slots| == 0 then ""
    else
      var s := slots[0];
      (if s.key in filled then params[s.key] else Placeholder(s.key))
      + (s.text + RenderSlots(slots[1..], filled, params))
  }

  function RenderWith(t: Template, filled: set<string>, params: map<string, string>): string
    requires filled <= params.Keys
  {
    t.head + RenderSlots(t.slots, filled, params)
  }

  /** The template line as written, before substitution. */
  function Render(t: Template): string
  {
    RenderWith(t, {}, map[])
  }

  function SlotKeys(slots: seq<Slot>): (r: seq<string>)
    ensures |r| == |slots|
    decreases |slots|
  {
    if |slots| == 0 then [] else [slots[0].key] + SlotKeys(slots[1..])
  }

  /** Slot text holds no `{`; keys hold neither `{` nor `}`. */
  predicate PlainSlots(slots: seq<Slot>)
  {
    forall i :: 0 <= i < |slots| ==>
      '{' !in slots[i].text && '{' !in slots[i].key && '}' !in slots[i].key
  }

  /** Literal text holds no `{`; keys hold neither `{` nor `}`. */
  predicate WellFormed(t: Template)
  {
    '{' !in t.head && PlainSlots(t.slots)
  }

  /** No parameter value holds `{`. */
  predicate PlainValues(params: map<string, string>)
  {
    forall k :: k in params ==> '{' !in params[k]
  }

  /** The keys of the template that are parameters. */
  function Known(t: Template, params: map<string, string>): (r: set<string>)
    ensures r <= params.Keys
  {
    set i | 0 <= i < |t.slots| && t.slots[i].key in params :: t.slots[i].key
  }

  /** `{$k'}` followed by anything does not start with `{$k}` for another key,
      when neither key holds `}`. */
  lemma PlaceholderMismatch(k: string, k': string, b: string)
    requires k != k' && '}' !in k && '}' !in k'
    ensures |Placeholder(k') + b| < |Placeholder(k)|
            || (Placeholder(k') + b)[..|Placeholder(k)|] != Placeholder(k)
  {
    var s, pat := Placeholder(k') + b, Placeholder(k);
    if |s| >= |pat| {
      var p := s[..|pat|];
      if |k'| == |k| {
        assert p[2..2 + |k|] == k';
        assert pat[2..2 + |k|] == k;
      } else if |k'| < |k| {
        assert p[2 + |k'|] == '}';
        assert pat[2 + |k'|] == k[|k'|] != '}';
      } else {
        assert pat[2 + |k|] == '}';
        assert p[2 + |k|] == k'[|k|] != '}';
      }
    }
  }

  /** `{$k'}` at the front does not match `{$k}` for another key without `}`. */
  lemma ReplaceOtherPlaceholder(k: string, k': string, b: string, v: string)
    requires k != k' && '}' !in k && '}' !in k' && '{' !in k'
    ensures Replace(Placeholder(k') + b, Placeholder(k), v) == Placeholder(k') + Replace(b, Placeholder(k), v)
  {
    var s, pat := Placeholder(k') + b, Placeholder(k);
    PlaceholderMismatch(k, k', b);
    ReplaceSkip(s, pat, v);
    var tail := "$" + k' + "}";
    assert s[1..] == tail + b;
    ReplacePlainPrefix(tail, b, pat, v);
    assert Placeholder(k') == [s[0]] + tail;
  }

  /** One step on a rendered slot list fills exactly the slots with that key. */
  lemma {:induction false} ReplaceKeyRenderSlots(slots: seq<Slot>, filled: set<string>, k: string, params: map<string, string>)
    requires filled <= params.Keys && k in params && '}' !in k && PlainValues(params)
    requires PlainSlots(slots)
    ensures Replace(RenderSlots(slots, filled, params), Placeholder(k), params[k])
            == RenderSlots(slots, filled + {k}, params)
    decreases |slots|
  {
    var pat, v := Placeholder(k), params[k];
    if |slots| == 0 {
      assert Replace("", pat, v) == "";
    } else {
      var s := slots[0];
      var rest := RenderSlots(slots[1..], filled, params);
      var rest' := RenderSlots(slots[1..], filled + {k}, params);
      var tail, tail' := s.text + rest, s.text + rest';
      ReplaceKeyRenderSlots(slots[1..], filled, k, params);
      ReplacePlainPrefix(s.text, rest, pat, v);
      var head := if s.key in filled then params[s.key] else Placeholder(s.key);
      var head' := if s.key in filled + {k} then params[s.key] else Placeholder(s.key);
      assert RenderSlots(slots, filled, params) == head + tail;
      assert RenderSlots(slots, filled + {k}, params) == head' + tail';
      if s.key in filled {
        ReplacePlainPrefix(head, tail, pat, v);
      } else if s.key == k {
        ReplaceAtFront(tail, pat, v);
      } else {
        ReplaceOtherPlaceholder(k, s.key, tail, v);
      }
    }
  }

  /** Rendering only depends on which slot keys are filled. */
  lemma {:induction false} RenderSlotsSameKeys(slots: seq<Slot>, f: set<string>, g: set<string>, params: map<string, string>)
    requires f <= params.Keys && g <= params.Keys
    requires forall i :: 0 <= i < |slots| ==> (slots[i].key in f <==> slots[i].key in g)
    ensures RenderSlots(slots, f, params) == RenderSlots(slots, g, params)
    decreases |slots|
  {
    if |slots| > 0 {
      RenderSlotsSameKeys(slots[1..], f, g, params);
    }
  }

  /** Applying the steps for any keys without `}` to a partly filled template
      fills the slots whose key is among them and is a parameter. */
  lemma {:induction false} ApplyKeysRender(t: Template, filled: set<string>, keys: seq<string>, params: map<string, string>)
    requires WellFormed(t) && PlainValues(params) && filled <= params.Keys
    requires forall i :: 0 <= i < |keys| ==> '}' !in keys[i]
    ensures ApplyKeys(RenderWith(t, filled, params), keys, params)
            == RenderWith(t, filled + (set i | 0 <= i < |keys| && keys[i] in params :: keys[i]), params)
    decreases |keys|
  {
    var added := set i | 0 <= i < |keys| && keys[i] in params :: keys[i];
    if |keys| == 0 {
      assert added == {};
      assert filled + added == filled;
    } else {
      var init := keys[..|keys| - 1];
      var k := keys[|keys| - 1];
      var addedInit := set i | 0 <= i < |init| && init[i] in params :: init[i];
      ApplyKeysRender(t, filled, init, params);
      var mid := RenderWith(t, filled + addedInit, params);
      if k in params {
        ReplacePlainPrefix(t.head, RenderSlots(t.slots, filled + addedInit, params), Placeholder(k), params[k]);
        ReplaceKeyRenderSlots(t.slots, filled + addedInit, k, params);
        assert added == addedInit + {k};
        assert filled + added == filled + addedInit + {k};
      } else {
        assert added == addedInit;
      }
    }
  }

  /** A slot as it appears in `line.split('{$')`: key, closing brace, text. */
  function Chunk(s: Slot): string
  {
    s.key + "}" + s.text
  }

  function Chunks(slots: seq<Slot>): (r: seq<string>)
    ensures |r| == |slots|
    decreases |slots|
  {
    if |slots| == 0 then [] else [Chunk(slots[0])] + Chunks(slots[1..])
  }

  /** The pieces `line.split('{$')` of a rendered template: the head, then each
      key with its closing brace and text. */
  lemma {:induction false} SplitRenderedSlots(a: string, slots: seq<Slot>)
    requires '{' !in a
    requires PlainSlots(slots)
    ensures Split(a + RenderSlots(slots, {}, map[]), Open) == [a] + Chunks(slots)
    decreases |slots|
  {
    if |slots| == 0 {
      SplitPlain(a, Open);
      assert a + "" == a;
    } else {
      var s := slots[0];
      var rest := RenderSlots(slots[1..], {}, map[]);
      var next := Chunk(s);
      calc {
        a + RenderSlots(slots, {}, map[]);
        a + (Placeholder(s.key) + (s.text + rest));
        { assert Placeholder(s.key) + (s.text + rest) == Open + (next + rest); }
        a + (Open + (next + rest));
        a + Open + (next + rest);
      }
      SplitAfterPlain(a, Open, next + rest);
      SplitRenderedSlots(next, slots[1..]);
    }
  }

  lemma {:induction false} ChunkAt(slots: seq<Slot>, i: int)
    requires 0 <= i < |slots|
    ensures Chunks(slots)[i] == Chunk(slots[i])
    decreases i
  {
    if i > 0 {
      ChunkAt(slots[1..], i - 1);
    }
  }

  /** The keys the substitution finds in a rendered template are its slot keys. */
  lemma PlaceholderKeysOfRender(t: Template)
    requires WellFormed(t)
    ensures PlaceholderKeys(Render(t)) == SlotKeys(t.slots)
    ensures Contains(Render(t), Open) <==> |t.slots| > 0
  {
    var slots := t.slots;
    SplitRenderedSlots(t.head, slots);
    var pieces := Split(Render(t), Open);
    var keys := PlaceholderKeys(Render(t));
    forall i | 0 <= i < |slots|
      ensures keys[i] == SlotKeys(slots)[i]
    {
      ChunkAt(slots, i);
      SplitAfterPlain(slots[i].key, "}", slots[i].text);
      SlotKeysAt(slots, i);
    }
    if !Contains(Render(t), Open) {
      assert Split(Render(t), Open) == [Render(t)];
    }
  }

  lemma {:induction false} SlotKeysAt(slots: seq<Slot>, i: int)
    requires 0 <= i < |slots|
    ensures SlotKeys(slots)[i] == slots[i].key
    decreases i
  {
    if i > 0 {
      SlotKeysAt(slots[1..], i - 1);
    }
  }

  /** What substitution does to a well-formed template line: every placeholder
      whose key is a parameter is replaced by its value, every other
      placeholder is left verbatim, and the literal text is unchanged. */
  lemma SubstTemplate(t: Template, params: map<string, string>)
    requires WellFormed(t) && PlainValues(params)
    ensures SubstLine(Render(t), params) == RenderWith(t, Known(t, params), params)
  {
    var keys := SlotKeys(t.slots);
    PlaceholderKeysOfRender(t);
    assert Render(t) == RenderWith(t, {}, params) by {
      RenderSlotsSameKeys(t.slots, {}, {}, map[]);
      RenderSlotsParams(t.slots, params);
    }
    forall i | 0 <= i < |keys|
      ensures '}' !in keys[i]
    {
      SlotKeysAt(t.slots, i);
    }
    ApplyKeysRender(t, {}, keys, params);
    var added := set i | 0 <= i < |keys| && keys[i] in params :: keys[i];
    forall i | 0 <= i < |t.slots|
      ensures t.slots[i].key in {} + added <==> t.slots[i].key in Known(t, params)
    {
      SlotKeysAt(t.slots, i);
      if t.slots[i].key in added {
        var j :| 0 <= j < |keys| && keys[j] in params && keys[j] == t.slots[i].key;
      }
    }
    RenderSlotsSameKeys(t.slots, {} + added, Known(t, params), params);
    if |t.slots| == 0 {
      RenderSlotsSameKeys(t.slots, {}, Known(t, params), params);
    }
  }

  /** With nothing filled, the parameters do not matter. */
  lemma {:induction false} RenderSlotsParams(slots: seq<Slot>, params: map<string, string>)
    ensures RenderSlots(slots, {}, map[]) == RenderSlots(slots, {}, params)
    decreases |slots|
  {
    if |slots| > 0 {
      RenderSlotsParams(slots[1..], params);
    }
  }

  /** The first piece of `s.split(c)` holds no `c`. */
  lemma SplitHeadPlain(s: string, c: char)
    ensures c !in Split(s, [c])[0]
  {
    var r := Split(s, [c]);
    match Find(s, [c])
    case None =>
      forall j | 0 <= j < |s|
        ensures s[j] != c
      {
        assert !OccursAt(s, [c], j);
        assert s[j..j + 1] == [s[j]];
      }
    case Some(i) =>
      forall j | 0 <= j < i
        ensures s[j] != c
      {
        assert !OccursAt(s, [c], j);
        assert s[j..j + 1] == [s[j]];
      }
  }

  /** For well-formed templates and parameter values without `{`, substituting
      a second time changes nothing. */
  lemma SubstTemplateIdempotent(t: Template, params: map<string, string>)
    requires WellFormed(t) && PlainValues(params)
    ensures SubstLine(SubstLine(Render(t), params), params) == SubstLine(Render(t), params)
  {
    SubstTemplate(t, params);
    var once := RenderWith(t, Known(t, params), params);
    if Contains(once, Open) {
      var keys := PlaceholderKeys(once);
      forall i | 0 <= i < |keys|
        ensures '}' !in keys[i]
      {
        SplitHeadPlain(Split(once, Open)[i + 1], '}');
      }
      ApplyKeysRender(t, Known(t, params), keys, params);
      var added := set i | 0 <= i < |keys| && keys[i] in params :: keys[i];
      RenderSlotsSameKeys(t.slots, Known(t, params) + added, Known(t, params), params);
    }
  }

  lemma NestedLineSplit()
    ensures Split("{${$a}}", Open) == ["", "", "a}}"]
  {
    var inner := "a}}";
    var middle := "" + Open + inner;
    var line := "" + Open + middle;
    SplitPlain(inner, Open);
    SplitAfterPlain("", Open, inner);
    assert Split(middle, Open) == ["", inner];
    SplitAfterPlain("", Open, middle);
    assert Split(line, Open) == ["", "", inner];
    assert line == "{${$a}}";
  }

  lemma NestedLineKeys()
    ensures PlaceholderKeys("{${$a}}") == ["", "a"]
    ensures Contains("{${$a}}", Open)
  {
    NestedLineSplit();
    NestedPieceKeys("{${$a}}");
    assert "{${$a}}"[0..2] == Open;
    FindIs("{${$a}}", Open, 0);
  }

  /** The keys of a line that splits into "", "" and "a}}". */
  lemma NestedPieceKeys(line: string)
    requires Split(line, Open) == ["", "", "a}}"]
    ensures PlaceholderKeys(line) == ["", "a"]
  {
    var close := "}";
    SplitPlain("", close);
    SplitAfterPlain("a", close, close);
    assert "a" + close + close == "a}}";
    var keys := PlaceholderKeys(line);
    assert |keys| == 2 && keys[0] == "" && keys[1] == "a";
  }

  lemma NestedLineReplace()
    ensures Replace("{${$a}}", "{$a}", "a") == "{$a}"
  {
    var pat := "{$a}";
    assert "{${$a}}"[..4] != pat by {
      assert "{${$a}}"[..4][2] == '{';
    }
    ReplaceSkip("{${$a}}", pat, "a");
    assert "{${$a}}"[1..] == "${$a}}";
    assert "${$a}}"[..4] != pat by {
      assert "${$a}}"[..4][0] == '$';
    }
    ReplaceSkip("${$a}}", pat, "a");
    assert "${$a}}"[1..] == pat + "}";
    ReplaceAtFront("}", pat, "a");
    ReplaceAbsent("}", pat, "a");
  }

  lemma SinglePlaceholderLine()
    ensures PlaceholderKeys("{$a}") == ["a"]
    ensures Contains("{$a}", Open)
  {
    assert "{$a}" == "" + Open + "a}";
    SplitAfterPlain("", Open, "a}");
    SplitPlain("a}", Open);
    assert "a}" == "a" + "}" + "";
    SplitAfterPlain("a", "}", "");
  }

  lemma NestedLineFirstPass()
    ensures SubstLine("{${$a}}", map["a" := "a"]) == "{$a}"
  {
    var params := map["a" := "a"];
    NestedLineKeys();
    NestedLineReplace();
    var keys := ["", "a"];
    assert keys[..1] == [""] && [""][..0] == [];
    assert ApplyKeys("{${$a}}", [""], params) == "{${$a}}";
    assert Placeholder("a") == "{$a}";
    assert ApplyKeys("{${$a}}", keys, params) == Replace("{${$a}}", "{$a}", "a");
  }

  lemma NestedLineSecondPass()
    ensures SubstLine("{$a}", map["a" := "a"]) == "a"
  {
    var params := map["a" := "a"];
    SinglePlaceholderLine();
    ReplaceAtFront("", "{$a}", "a");
    assert "{$a}" + "" == "{$a}";
    assert Placeholder("a") == "{$a}";
    assert ["a"][..0] == [];
    assert ApplyKeys("{$a}", ["a"], params) == Replace("{$a}", "{$a}", "a");
  }

  /** Without the well-formedness condition a second pass can change the line:
      `{${$a}}` with `a` -> `a` becomes `{$a}` and then `a`, although no
      parameter value holds `{$`. */
  lemma SubstNotIdempotent()
    ensures !Contains("a", Open)
    ensures SubstLine("{${$a}}", map["a" := "a"]) == "{$a}"
    ensures SubstLine(SubstLine("{${$a}}", map["a" := "a"]), map["a" := "a"]) == "a"
  {
    NestedLineFirstPass();
    NestedLineSecondPass();
    NotContainsWithout("a", Open, '{');
  }
}
