/**
 * How the request handler chains the parts: the preset file, the layout
 * hints parsed from the model's reply, the merge, the document description
 * built from the polished blocks, and the renderer. These lemmas follow a
 * failure or a fallback of one stage through the stages after it.
 */
module Pipeline {
  import opened Wrappers
  import opened JsonValues
  import opened Schema
  import opened Merger
  import opened LlmEngine
  import opened TemplateLoader
  import opened Renderer

  /** The preset tier the handler passes to the merge: the loaded preset, or None. */
  function PresetTier(preset: Option<Json>): Json
  {
    if preset.Some? then preset.value else JNull
  }

  /**
   * A layout reply that fails, or that does not parse, gives the empty
   * dictionary, and the merge treats it exactly as if there were no hints at
   * all; so does a request with neither retrieved rules nor instructions,
   * whose hints stay the empty dictionary.
   */
  lemma FailedLayoutParseIsNoHints(reply: LlmReply, parse: string -> Option<Json>, preset: Json)
    requires reply.CallFailed? || parse(StripFences(reply.text)).None?
    ensures ParseLayoutConfig(reply, parse) == EmptyConfig
    ensures Resolve(JNull, ParseLayoutConfig(reply, parse), preset) == Resolve(JNull, JNull, preset)
    ensures Resolve(JNull, EmptyConfig, preset) == Resolve(JNull, JNull, preset)
  {
    assert !Truthy(EmptyConfig);
    assert CascadeFrom(SystemDefault, JNull, EmptyConfig, preset) == CascadeFrom(SystemDefault, JNull, JNull, preset);
  }

  /** A school without a readable preset file merges as if no preset existed. */
  lemma MissingPresetIsNoPreset(schoolId: string, rules: map<string, PresetFile>, alnum: char -> bool, rag: Json)
    requires PresetFileName(schoolId, alnum) !in rules || rules[PresetFileName(schoolId, alnum)].Unparsable?
    ensures PresetTier(GetPresetRules(schoolId, rules, alnum)) == JNull
    ensures Resolve(JNull, rag, PresetTier(GetPresetRules(schoolId, rules, alnum))) == Resolve(JNull, rag, JNull)
  {
  }

  /**
   * When polishing falls back, the document description holds exactly one
   * body-text block carrying the raw text, and the rendered document is one
   * paragraph whose single run is that text, formatted by the catalog's
   * `body_text` style.
   */
  lemma FallbackDocumentIsOneParagraph(rawText: string, reply: LlmReply, parse: string -> Option<Json>,
                                       meta: map<string, Json>, config: GlobalStyleConfig, newId: nat -> string)
    requires reply.CallFailed? || parse(StripFences(reply.text)).None?
    ensures var dsl := DocumentFromParts(meta, config, PolishContent(rawText, reply, parse), newId);
            && dsl.Ok?
            && dsl.value.contentBlocks == [ContentBlock(newId(0), BodyText, rawText, None, None)]
    ensures var dsl := DocumentFromParts(meta, config, PolishContent(rawText, reply, parse), newId);
            var doc := Emitted(config, dsl.value.contentBlocks);
            && |doc| == 1 && |doc[0].runs| == 1 && doc[0].runs[0].text == rawText
            && (config.bodyText.Some? ==>
                  && doc[0].runs[0].format == RunFormatted(PlainRun, config.bodyText.value)
                  && doc[0].format == ParagraphFormatted(PlainParagraph, config.bodyText.value))
  {
    var blocks := PolishContent(rawText, reply, parse);
    PolishFallbackIsOneBlock(rawText, reply, parse, newId(0), ["content_blocks", IndexName(0)]);
    assert BlockParser(newId)(blocks.items[0], 0) == Ok(ContentBlock(newId(0), BodyText, rawText, None, None));
    var dsl := DocumentFromParts(meta, config, blocks, newId);
    assert dsl.Ok?;
    assert |dsl.value.contentBlocks| == 1;
    var b := dsl.value.contentBlocks;
    assert b == [ContentBlock(newId(0), BodyText, rawText, None, None)];
    TextBlocksOnePerParagraph(config, b, 0);
    BaseStyleIsOwnSlot(config, BodyText, config.globalDefault);
  }
}
