/**
 * The deterministic parts of the language-model engine: the clean-up of a
 * model reply before it is parsed as JSON, the fall-backs taken when a call
 * or a parse fails, the built-in font mapping used when the mapping file is
 * missing, and the worked example the layout prompt shows the model. The
 * model call itself and `json.loads` are not modelled: the reply arrives as a
 * value and the JSON parser is a parameter.
 */
module LlmEngine {
  import opened Wrappers
  import opened JsonValues
  import opened PyStr
  import opened Schema
  import opened Merger

  // ----------------------------------------------------- reply clean-up

  const JsonFence: string := "```json"
  const Fence: string := "```"

  /** The "```json" opener a text starts with, if any. */
  function Opener(cleaned: string): string
  {
    if StartsWith(cleaned, JsonFence) then JsonFence else []
  }

  /** The "```" closer a text ends with, if any. */
  function Closer(cleaned: string): string
  {
    if EndsWith(cleaned, Fence) then Fence else []
  }

  /**
   * One leading "```json" cut, then one trailing "```". The two cuts are
   * independent: the text is its opener, if it has one, then the result, then
   * its closer, if it has one, so a plain "```" opener stays in the result.
   */
  function Unfence(cleaned: string): (r: string)
    ensures cleaned == Opener(cleaned) + r + Closer(cleaned)
    ensures |r| <= |cleaned|
  {
    var afterOpen := if StartsWith(cleaned, JsonFence) then cleaned[|JsonFence|..] else cleaned;
    FencesApart(cleaned, afterOpen);
    if EndsWith(afterOpen, Fence) then
      assert afterOpen == afterOpen[..|afterOpen| - |Fence|] + Fence;
      afterOpen[..|afterOpen| - |Fence|]
    else
      afterOpen
  }

  /**
   * What follows the opener ends with "```" exactly when the whole text does:
   * the opener ends in "json", so a closer cannot overlap it.
   */
  lemma FencesApart(cleaned: string, afterOpen: string)
    requires afterOpen == if StartsWith(cleaned, JsonFence) then cleaned[|JsonFence|..] else cleaned
    ensures cleaned == Opener(cleaned) + afterOpen
    ensures EndsWith(afterOpen, Fence) <==> EndsWith(cleaned, Fence)
  {
    if StartsWith(cleaned, JsonFence) {
      assert cleaned == JsonFence + afterOpen;
      if EndsWith(cleaned, Fence) {
        assert cleaned[|cleaned| - 3] == '`';
        assert cleaned[4] == 's' && cleaned[5] == 'o' && cleaned[6] == 'n';
        assert afterOpen[|afterOpen| - |Fence|..] == cleaned[|cleaned| - |Fence|..];
      }
      if EndsWith(afterOpen, Fence) {
        assert cleaned[|cleaned| - |Fence|..] == afterOpen[|afterOpen| - |Fence|..];
      }
    }
  }

  /**
   * The clean-up both engine calls apply to a reply: surrounding white space
   * is stripped, then one leading "```json" is cut, then one trailing "```".
   * The stripped reply is the opener, the result and the closer.
   */
  function StripFences(response: string): (r: string)
    ensures Strip(response) == Opener(Strip(response)) + r + Closer(Strip(response))
    ensures |r| <= |response|
  {
    Unfence(Strip(response))
  }

  /** A fenced text loses exactly its two fences. */
  lemma UnfenceFenced(body: string)
    ensures Unfence(JsonFence + body + Fence) == body
  {
    var fenced := JsonFence + body + Fence;
    assert fenced[..|JsonFence|] == JsonFence;
    var afterOpen := fenced[|JsonFence|..];
    assert afterOpen == body + Fence;
    assert afterOpen[|afterOpen| - |Fence|..] == Fence;
    assert afterOpen[..|afterOpen| - |Fence|] == body;
  }

  /** A fenced reply, with any white space around the fence, comes back as exactly the text between the fences. */
  lemma StripFencesUnwraps(front: string, body: string, back: string)
    requires AllSpace(front) && AllSpace(back)
    ensures StripFences(front + JsonFence + body + Fence + back) == body
  {
    var fenced := JsonFence + body + Fence;
    assert front + JsonFence + body + Fence + back == front + fenced + back;
    assert fenced[0] == '`' && fenced[|fenced| - 1] == '`';
    StripPadded(front, fenced, back);
    UnfenceFenced(body);
  }

  /** A text fenced with a plain "```" opener keeps that opener: only the closing fence is cut. */
  lemma UnfencePlainOpener(body: string)
    requires !StartsWith(Fence + body + Fence, JsonFence)
    ensures Unfence(Fence + body + Fence) == Fence + body
  {
    var fenced := Fence + body + Fence;
    assert EndsWith(fenced, Fence) by {
      assert fenced[|fenced| - |Fence|..] == Fence;
    }
    assert fenced == [] + (Fence + body) + Fence;
  }

  /**
   * A reply fenced with a plain "```" opener, with any white space around the
   * fence, cleans to the body behind a "```" that is still in place, so what
   * is handed to the JSON parser starts with a backtick.
   */
  lemma StripFencesKeepsPlainOpener(front: string, body: string, back: string)
    requires AllSpace(front) && AllSpace(back)
    requires !StartsWith(Fence + body + Fence, JsonFence)
    ensures StripFences(front + Fence + body + Fence + back) == Fence + body
    ensures StripFences(front + Fence + body + Fence + back)[0] == '`'
  {
    var fenced := Fence + body + Fence;
    assert front + Fence + body + Fence + back == front + fenced + back;
    assert fenced[0] == '`' && fenced[|fenced| - 1] == '`';
    StripPadded(front, fenced, back);
    UnfencePlainOpener(body);
  }

  /** A blank reply, all white space, cleans to the empty text. */
  lemma StripFencesBlank(response: string)
    requires AllSpace(response)
    ensures StripFences(response) == []
  {
    StripIsStretch(response);
    assert Opener([]) + [] + Closer([]) == [];
  }

  /** A reply that carries no fences is only stripped of surrounding white space. */
  lemma StripFencesPlain(response: string)
    requires !StartsWith(Strip(response), JsonFence) && !EndsWith(Strip(response), Fence)
    ensures StripFences(response) == Strip(response)
  {
  }

  // ---------------------------------------------------- the two calls

  /** What a model call yields: a failure (network, quota, ...) or the reply text. */
  datatype LlmReply = CallFailed | Replied(text: string)

  /** The empty dictionary: falsy, so the merge skips it. */
  const EmptyConfig: Json := JObj(map[])

  /**
   * `parse_layout_config`: the cleaned reply parsed as JSON, whatever JSON it
   * is; a failed call or a failed parse gives the empty dictionary.
   * `parse` stands for `json.loads`, None when it raises.
   */
  function ParseLayoutConfig(reply: LlmReply, parse: string -> Option<Json>): (r: Json)
    ensures reply.CallFailed? ==> r == EmptyConfig
    ensures reply.Replied? && parse(StripFences(reply.text)).None? ==> r == EmptyConfig
    ensures reply.Replied? && parse(StripFences(reply.text)).Some? ==> r == parse(StripFences(reply.text)).value
  {
    match reply
    case CallFailed => EmptyConfig
    case Replied(text) =>
      match parse(StripFences(text))
      case None => EmptyConfig
      case Some(j) => j
  }

  /** The single body-text block that stands for the whole input when polishing fails. */
  function FallbackBlocks(rawText: string): Json
  {
    JArr([JObj(map["type" := JStr("body_text"), "text" := JStr(rawText)])])
  }

  /**
   * `polish_content`: a list reply is the block list; a dictionary with a
   * "blocks" key gives that value, unchecked; anything else, a failed parse
   * or a failed call gives the raw text as one body-text block.
   */
  function PolishContent(rawText: string, reply: LlmReply, parse: string -> Option<Json>): (r: Json)
    ensures reply.CallFailed? ==> r == FallbackBlocks(rawText)
    ensures reply.Replied? ==>
              var parsed := parse(StripFences(reply.text));
              && (parsed.None? ==> r == FallbackBlocks(rawText))
              && (parsed.Some? && parsed.value.JArr? ==> r == parsed.value)
              && (parsed.Some? && parsed.value.JObj? && "blocks" in parsed.value.fields ==> r == parsed.value.fields["blocks"])
              && (parsed.Some? && !parsed.value.JArr? && !(parsed.value.JObj? && "blocks" in parsed.value.fields) ==>
                    r == FallbackBlocks(rawText))
  {
    match reply
    case CallFailed => FallbackBlocks(rawText)
    case Replied(text) =>
      match parse(StripFences(text))
      case None => FallbackBlocks(rawText)
      case Some(data) =>
        if data.JArr? then data
        else if data.JObj? && "blocks" in data.fields then data.fields["blocks"]
        else FallbackBlocks(rawText)
  }

  /** The fallback record validates as a body-text block carrying the raw text, with a fresh id and no source or override. */
  lemma FallbackBlockParses(rawText: string, freshId: string, path: seq<string>)
    ensures ContentBlockFromJson(FallbackBlocks(rawText).items[0], freshId, path)
              == Ok(ContentBlock(freshId, BodyText, rawText, None, None))
  {
    var m := FallbackBlocks(rawText).items[0].fields;
    assert "type" in m && m["type"] == JStr("body_text");
    assert "text" in m && m["text"] == JStr(rawText);
    assert "id" !in m && "source_data" !in m && "style_override" !in m;
    assert ContentTypeFromName("body_text") == Some(BodyText);
  }

  /** Whenever polishing returns something other than what the model sent, it is a list holding the raw text as one body-text block. */
  lemma PolishFallbackIsOneBlock(rawText: string, reply: LlmReply, parse: string -> Option<Json>, freshId: string, path: seq<string>)
    requires reply.CallFailed? || parse(StripFences(reply.text)).None?
    ensures PolishContent(rawText, reply, parse).JArr?
    ensures |PolishContent(rawText, reply, parse).items| == 1
    ensures ContentBlockFromJson(PolishContent(rawText, reply, parse).items[0], freshId, path)
              == Ok(ContentBlock(freshId, BodyText, rawText, None, None))
  {
    assert PolishContent(rawText, reply, parse) == FallbackBlocks(rawText);
    FallbackBlockParses(rawText, freshId, path);
  }

  // ---------------------------------------------------- font mapping

  /** What reading the mapping file gives: no file, a parsed file, or a failure (unreadable, bad JSON). */
  datatype FontFile = Missing | Loaded(data: Json) | LoadFailed

  /** The text handed to the prompt: the mapping as JSON, or the error line. */
  datatype FontContext = MappingJson(data: Json) | ErrorLine(text: string)

  /** Chinese font names to system font names. */
  const FallbackFonts: map<string, string> := map[
    "宋体" := "SimSun", "黑体" := "SimHei", "楷体" := "KaiTi",
    "仿宋" := "FangSong", "微软雅黑" := "Microsoft YaHei",
    "隶书" := "LiSu", "幼圆" := "YouYuan"]

  /** Chinese size names to points. */
  const FallbackSizes: map<string, real> := map["小四" := 12.0, "四号" := 14.0, "三号" := 16.0]

  function FontMapJson(fonts: map<string, string>): map<string, Json>
  {
    map k | k in fonts :: JStr(fonts[k])
  }

  function SizeMapJson(sizes: map<string, real>): map<string, Json>
  {
    map k | k in sizes :: JNum(sizes[k])
  }

  /** The built-in mapping used when no mapping file exists. */
  const FallbackMapping: Json :=
    JObj(map["font_map_cn" := JObj(FontMapJson(FallbackFonts)), "size_map" := JObj(SizeMapJson(FallbackSizes))])

  const FontLoadError: string := "Error loading font mapping."

  /** `_load_font_config`: the file's mapping when there is one, the built-in mapping when there is none, the error line when reading fails. */
  function LoadFontConfig(file: FontFile): (r: FontContext)
    ensures file.Loaded? ==> r == MappingJson(file.data)
    ensures file.Missing? ==> r == MappingJson(FallbackMapping)
    ensures file.LoadFailed? ==> r == ErrorLine(FontLoadError)
  {
    match file
    case Missing => MappingJson(FallbackMapping)
    case Loaded(data) => MappingJson(data)
    case LoadFailed => ErrorLine(FontLoadError)
  }

  /**
   * The built-in size names agree with the default style table: 三号 is the
   * default `heading_1` size, 四号 the `heading_2` size and 小四 the
   * `body_text` size.
   */
  lemma FallbackSizesAgreeWithDefaults()
    ensures JNum(FallbackSizes["三号"]) == ValueAt(SystemDefault, "heading_1", "size")
    ensures JNum(FallbackSizes["四号"]) == ValueAt(SystemDefault, "heading_2", "size")
    ensures JNum(FallbackSizes["小四"]) == ValueAt(SystemDefault, "body_text", "size")
  {
    DefaultHeading1Entry();
    DefaultHeading2Entry();
    DefaultBodyTextEntry();
  }

  /** 黑体 is the default heading font and 宋体 the default body font; distinct Chinese font names map to distinct fonts. */
  lemma FallbackFontsAgreeWithDefaults()
    ensures JStr(FallbackFonts["黑体"]) == ValueAt(SystemDefault, "heading_1", "family")
    ensures JStr(FallbackFonts["宋体"]) == ValueAt(SystemDefault, "body_text", "family")
    ensures forall a, b :: a in FallbackFonts && b in FallbackFonts && a != b ==> FallbackFonts[a] != FallbackFonts[b]
  {
    DefaultHeading1Entry();
    DefaultBodyTextEntry();
  }

  // ------------------------------------------ the layout prompt's example

  /** The "Format example" the layout prompt shows the model, as written. */
  const PromptExample: Json := JObj(map[
    "heading_1" := JObj(map["font_name" := JStr("SimHei"), "font_size" := JNum(16.0), "align" := JStr("CENTER"),
                            "line_spacing" := JNum(1.5), "is_bold" := JBool(true)]),
    "body_text" := JObj(map["font_name" := JStr("KaiTi"), "font_size" := JNum(12.0), "align" := JStr("JUSTIFY"),
                            "line_spacing" := JNum(1.5)])])

  /** The same example written with the catalog's own field names. */
  const CorrectedPromptExample: Json := JObj(map[
    "heading_1" := JObj(map["family" := JStr("SimHei"), "size" := JNum(16.0), "align" := JStr("CENTER"),
                            "line_spacing" := JNum(1.5), "bold" := JBool(true)]),
    "body_text" := JObj(map["family" := JStr("KaiTi"), "size" := JNum(12.0), "align" := JStr("JUSTIFY"),
                            "line_spacing" := JNum(1.5)])])

  /** The example's `heading_1` record as written: only "align" and "line_spacing" name a field, and both coerce. */
  lemma PromptHeadingValid()
    ensures FlatValidEntry(PromptExample.fields["heading_1"].fields)
  {
    var m := PromptExample.fields["heading_1"].fields;
    forall f | FieldName(f) in m
      ensures !m[FieldName(f)].JObj? && CoerceField(f, NormalizedValue(FieldName(f), m[FieldName(f)])).Some?
    {
      UpperOfUpper("CENTER");
      CoerceAlignmentName(Center);
    }
  }

  /** The example's `body_text` record as written. */
  lemma PromptBodyValid()
    ensures FlatValidEntry(PromptExample.fields["body_text"].fields)
  {
    var m := PromptExample.fields["body_text"].fields;
    forall f | FieldName(f) in m
      ensures !m[FieldName(f)].JObj? && CoerceField(f, NormalizedValue(FieldName(f), m[FieldName(f)])).Some?
    {
      UpperOfUpper("JUSTIFY");
      CoerceAlignmentName(Justify);
    }
  }

  /** The corrected `heading_1` record: every field it names coerces. */
  lemma CorrectedHeadingValid()
    ensures FlatValidEntry(CorrectedPromptExample.fields["heading_1"].fields)
  {
    var m := CorrectedPromptExample.fields["heading_1"].fields;
    forall f | FieldName(f) in m
      ensures !m[FieldName(f)].JObj? && CoerceField(f, NormalizedValue(FieldName(f), m[FieldName(f)])).Some?
    {
      UpperOfUpper("CENTER");
      CoerceAlignmentName(Center);
    }
  }

  /** The corrected `body_text` record. */
  lemma CorrectedBodyValid()
    ensures FlatValidEntry(CorrectedPromptExample.fields["body_text"].fields)
  {
    var m := CorrectedPromptExample.fields["body_text"].fields;
    forall f | FieldName(f) in m
      ensures !m[FieldName(f)].JObj? && CoerceField(f, NormalizedValue(FieldName(f), m[FieldName(f)])).Some?
    {
      UpperOfUpper("JUSTIFY");
      CoerceAlignmentName(Justify);
    }
  }

  /** Both examples are tiers of flat records whose known fields coerce. */
  lemma ExamplesAreFlatValidTiers()
    ensures PromptExample.JObj? && FlatValidTier(PromptExample.fields)
    ensures CorrectedPromptExample.JObj? && FlatValidTier(CorrectedPromptExample.fields)
  {
    PromptHeadingValid();
    PromptBodyValid();
    CorrectedHeadingValid();
    CorrectedBodyValid();
  }

  /** A font named by the extracted-hints tier alone is the font the slot resolves to. */
  lemma HintFontApplies(base: map<string, Json>, rag: Json, slot: string, font: string)
    requires Validates(base) && NullFree(base)
    requires rag.JObj? && FlatValidTier(rag.fields)
    requires slot in SlotNames
    requires ValueAt(rag.fields, slot, "family") == JStr(font)
    ensures ResolveFrom(base, JNull, rag, JNull).Ok?
    ensures Attr(ResolveFrom(base, JNull, rag, JNull).value, slot).Some?
    ensures Attr(ResolveFrom(base, JNull, rag, JNull).value, slot).value.family == Some(font)
  {
    FlatHintTierResolves(base, rag);
    assert Sets(rag, slot, "family");
    ResolvedFromWinningTier(base, JNull, rag, JNull, slot, Family);
  }

  /** When the extracted-hints tier alone names no font for a slot, the table's font stays. */
  lemma HintWithoutFontKeepsTable(base: map<string, Json>, rag: Json, slot: string, font: string)
    requires Validates(base) && NullFree(base)
    requires rag.JObj? && FlatValidTier(rag.fields)
    requires slot in SlotNames
    requires ValueAt(rag.fields, slot, "family") == JNull
    requires ValueAt(base, slot, "family") == JStr(font)
    ensures ResolveFrom(base, JNull, rag, JNull).Ok?
    ensures Attr(ResolveFrom(base, JNull, rag, JNull).value, slot).Some?
    ensures Attr(ResolveFrom(base, JNull, rag, JNull).value, slot).value.family == Some(font)
  {
    FlatHintTierResolves(base, rag);
    assert Silent(rag, slot, "family");
    ResolvedFromWinningTier(base, JNull, rag, JNull, slot, Family);
  }

  /** The example's `body_text` record names no "family", while the default table's names SimSun. */
  lemma PromptExampleNamesNoFont()
    ensures ValueAt(PromptExample.fields, "body_text", "family") == JNull
    ensures ValueAt(SystemDefault, "body_text", "family") == JStr("SimSun")
  {
    DefaultBodyTextEntry();
  }

  /**
   * A reply that follows the prompt's example to the letter asks for KaiTi
   * body text, yet the catalog keeps SimSun: "font_name", "font_size" and
   * "is_bold" name no style field and are dropped by validation.
   */
  lemma PromptExampleFontIgnored()
    ensures Resolve(JNull, PromptExample, JNull).Ok?
    ensures Attr(Resolve(JNull, PromptExample, JNull).value, "body_text").Some?
    ensures Attr(Resolve(JNull, PromptExample, JNull).value, "body_text").value.family == Some("SimSun")
  {
    PromptExampleNamesNoFont();
    ExamplesAreFlatValidTiers();
    DefaultTableValid();
    HintWithoutFontKeepsTable(SystemDefault, PromptExample, "body_text", "SimSun");
  }

  /** With the catalog's field names the example's KaiTi body text does take effect. */
  lemma CorrectedExampleFontApplies()
    ensures Resolve(JNull, CorrectedPromptExample, JNull).Ok?
    ensures Attr(Resolve(JNull, CorrectedPromptExample, JNull).value, "body_text").Some?
    ensures Attr(Resolve(JNull, CorrectedPromptExample, JNull).value, "body_text").value.family == Some("KaiTi")
  {
    assert ValueAt(CorrectedPromptExample.fields, "body_text", "family") == JStr("KaiTi");
    ExamplesAreFlatValidTiers();
    DefaultTableValid();
    HintFontApplies(SystemDefault, CorrectedPromptExample, "body_text", "KaiTi");
  }

  /** A tier of flat valid records, given as the extracted-hints tier alone, resolves. */
  lemma ExampleResolves(rag: Json)
    requires rag.JObj? && FlatValidTier(rag.fields)
    ensures Resolve(JNull, rag, JNull).Ok?
  {
    DefaultTableValid();
    FlatHintTierResolves(SystemDefault, rag);
  }
}
