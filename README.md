# AI-PaperFormatter core, modelled in Dafny

AI-PaperFormatter turns a plain-text draft into a formatted `.docx` thesis.
A request goes through five stages:

1. A school identifier selects a static JSON preset of formatting rules.
2. A language model reads retrieved rule text and the user's wishes, and proposes layout hints.
3. A second model call splits the draft into typed content blocks.
4. The merger combines four tiers of style settings into one style catalog. The tiers are the user's overrides, the retrieved hints, the preset and a built-in default table.
5. The renderer writes one paragraph per text block, styled by its catalog slot and the block's own override.

This project models those stages and proves what each promises:

- `Schema` is the document description. It models the content-block and alignment enumerations and the nine-field `FontStyle` record, which records which fields were given explicitly. It also models the style catalog with its six slots, content blocks and the document itself. Each has a validator from JSON that follows the record declarations field by field. It models only the coercions listed under "Left out", so it accepts a subset of what pydantic accepts.
- `Merger` models the recursive dictionary update and the four-tier cascade (user over hints over preset over defaults). It also models the upper-casing of every `align` entry and the final validation. `DeepUpdate` and `NormalizeAligns` are methods with loops. They are proved against the functions `DeepUpdated` and `AlignNormalized`. The methods `MergeTier`, `MergeTiers` and `Merge`, which chain those loops, are proved against `ApplyTier`, `CascadeFrom` and `Resolve`. The lemmas state:
  - which tier's value each field ends up with;
  - that a null never overwrites;
  - that repeating a tier or the normalisation changes nothing;
  - what the built-in table resolves to.
- `LlmEngine` models what surrounds the two model calls:
  - the removal of a ```` ```json ```` fence;
  - the fallbacks when a call fails or its reply does not parse;
  - the choice between a bare list and a `blocks` key;
  - the font-name and size mapping offered to the model, with its built-in fallback.

  The model's reply and the JSON parser are parameters.
- `Renderer` models the hexadecimal colour decoding and the paragraph and run formatting. The document, its paragraphs and its runs are classes whose fields the formatting methods update in place, and `Render` walks the blocks in a loop. The per-block style is the catalog slot for the block's type, with the block's override applied to the fields it sets. Text blocks become one styled paragraph, image hooks a red centred placeholder, and table hooks nothing.
- `TemplateLoader` models how a school identifier is reduced to a safe preset file name, and how a preset is looked up. It also models how an uploaded PDF's page texts are joined and cut into 1000-character chunks for the retrieval store.
- `Pipeline` follows a failed model call or a missing preset through the request handler's later stages.
- `PyStr`, `JsonValues` and `Wrappers` hold the Python string operations used, the JSON value type, and `Option`/`Result`.

Two behaviours of the code shape the model:

- The renderer never falls back to the catalog's `global_default` slot. A block takes only the slot named after its type (`app/engine/renderer.py:91`). So image and table hooks get no base style, and `Renderer.BaseStyleIsOwnSlot` proves that `global_default` has no effect on rendering.
- The request handler passes the user's wishes to the merge only inside the hints (`app/api/endpoints.py:83-87`). The user tier is therefore always empty there, and the `Pipeline` lemmas use `JNull` for it.

## Model

| member | source | states |
|---|---|---|
| `Schema.ContentTypeFromName` | app/models/schema.py:7-15 | a block type is accepted exactly when it is one of the seven wire names, and it names that type |
| `Schema.AlignmentFromName` | app/models/schema.py:17-21 | an alignment is accepted exactly when it is one of `LEFT`, `CENTER`, `RIGHT`, `JUSTIFY` (case-sensitive), and it names that value |
| `Schema.AlignmentNamesUpper` | app/models/schema.py:17-21 | every alignment name is already upper case, so upper-casing leaves a valid name valid |
| `Schema.EmptyStyleHasNoValues` | app/models/schema.py:24-36 | a `FontStyle()` built with no arguments has every field None and no field marked as explicitly set |
| `Schema.FieldsDetermineStyle` | app/models/schema.py:24-36 | two style records with the same nine values and the same explicitly-set fields are the same record |
| `Schema.CoerceAlignmentName` | app/models/schema.py:30 | the `align` field accepts each enumeration name and stores that alignment |
| `Schema.FirstInvalid` | app/models/schema.py:24-36 | reports a field that does not coerce exactly when some field in the list does not coerce |
| `Schema.StyleFromField` | app/models/schema.py:24-36 | the record built from a valid mapping holds each field's coerced value, and marks a field set exactly when its key is present |
| `Schema.FontStyleFromJson` | app/models/schema.py:24-36 | validation succeeds iff every declared field coerces (None is allowed everywhere); on success each field is the coerced value and the set fields are exactly the keys present |
| `Schema.FontStyleFromAgreeing` | app/models/schema.py:24-36 | two mappings that agree on the nine declared keys validate to the same result |
| `Schema.FontStyleIgnoresUnknownKeys` | app/models/schema.py:24-36 | adding an undeclared key never changes the validation result |
| `Schema.SlotFromJson` | app/models/schema.py:38-45 | an absent slot defaults to an empty `FontStyle`; an explicit null gives None; a mapping is validated as a `FontStyle`; anything else is an error |
| `Schema.CatalogFromJson` | app/models/schema.py:38-45 | the catalog validates iff each of the six slots does, and each slot holds that slot's result |
| `Schema.CatalogPopulated` | app/models/schema.py:38-45 | a catalog validated from a mapping without nulls has all six slots present |
| `Schema.ContentBlockFromJson` | app/models/schema.py:48-58 | a block validates iff it is a mapping with a string `type` naming a content type, string-or-absent `id` and `text`, a string, null or absent `source_data`, and a null, absent or valid `style_override`; on success the type is that name's, `id` is the given one or a fresh id, `text` the given one or empty, `source_data` the given string or None, and `style_override` None when absent or null and otherwise the override's validated `FontStyle` |
| `Schema.BlocksFrom` | app/models/schema.py:72 | a parsed block list is as long as the JSON list |
| `Schema.BlocksFromPointwise` | app/models/schema.py:72 | the block list parses iff every element parses, and element i is that element's block |
| `Schema.DocumentFromParts` | app/models/schema.py:61-72 | the document validates iff the blocks are a JSON list whose every element is a valid block; meta and catalog are kept and the blocks are the parsed elements in order |
| `Merger.DeepUpdated` | app/core/merger.py:23-30 | the updated dictionary's keys are the target's plus the source's non-null keys, and a null-free target stays null-free |
| `Merger.DeepUpdate` | app/core/merger.py:23-30 | the loop over the source's entries computes exactly `DeepUpdated(target, source)` |
| `Merger.DeepUpdatedStep` | app/core/merger.py:25-29 | handling one more source entry changes only that key: it recurses when both sides are mappings, skips a null, and otherwise replaces |
| `Merger.NoneNeverOverwrites` | app/core/merger.py:28-29 | a key that is absent or null in the source keeps the target's value |
| `Merger.MappingsMergeFieldwise` | app/core/merger.py:26-27 | when both sides hold a mapping under a key, the result is a mapping that keeps the target's entries the source leaves null or absent, and takes the source's non-null plain values |
| `Merger.OtherwiseReplacedWholesale` | app/core/merger.py:28-29 | a non-null source value replaces the target's value whenever the two are not both mappings |
| `Merger.DeepUpdateWithItself` | app/core/merger.py:23-30 | updating a dictionary with itself leaves it unchanged |
| `Merger.DeepUpdateIdempotent` | app/core/merger.py:23-30 | applying the same source a second time changes nothing |
| `Merger.SetFieldWins` | app/core/merger.py:23-30 | a field the source sets to a non-null plain value reads back as that value |
| `Merger.SilentFieldKept` | app/core/merger.py:23-30 | a field the source does not set keeps the target's value |
| `Merger.ApplyTier` | app/core/merger.py:46-55 | a falsy tier (None, empty dict, empty list, zero, empty string, false) is skipped; a truthy mapping is deep-merged; any other truthy value fails |
| `Merger.ApplyTierIdempotent` | app/core/merger.py:46-55 | applying a tier twice gives the same configuration as applying it once |
| `Merger.CascadeFrom` | app/core/merger.py:42-55 | applying preset, then hints, then user tier to a null-free base gives a null-free configuration |
| `Merger.CascadePriority` | app/core/merger.py:38-55 | each field takes the user's value if the user sets it, else the hints', else the preset's, else the base table's |
| `Merger.AlignNormalized` | app/core/merger.py:58-60 | upper-casing the `align` entries keeps the top-level keys and null-freedom |
| `Merger.AlignNormalizedReads` | app/core/merger.py:58-60 | after normalisation a string `align` in a slot reads as its upper-cased form and every other field is unchanged; a string `align` is then upper case |
| `Merger.AlignNormalizedIdempotent` | app/core/merger.py:58-60 | normalising twice equals normalising once |
| `Merger.NormalizeAligns` | app/core/merger.py:58-60 | the loop over the configuration's slots computes exactly `AlignNormalized` |
| `Merger.MergeTier` | app/core/merger.py:46-55 | merging one tier in place gives exactly `ApplyTier` |
| `Merger.MergeTiers` | app/core/merger.py:42-55 | the three tier merges in order compute exactly `CascadeFrom` |
| `Merger.Merge` | app/core/merger.py:33-62 | `merge` returns exactly `Resolve`: the validated, align-normalised cascade over the built-in table |
| `Merger.ResolvedField` | app/core/merger.py:33-62 | each field of a resolved slot is the coerced, normalised value of the merged dictionary, and is marked set iff the merged slot has that key |
| `Merger.ResolvedFromWinningTier` | app/core/merger.py:33-62 | each field of a resolved slot is coerced from the value of the highest tier that sets it |
| `Merger.ResolveOkWhenValid` | app/core/merger.py:62 | whenever every slot of the merged dictionary coerces after normalisation, the final validation succeeds |
| `Merger.DefaultTableNormalized` | app/core/merger.py:6-19 | the built-in table's alignments are already upper case |
| `Merger.DefaultTableNullFree` | app/core/merger.py:6-19 | the built-in table holds no nulls |
| `Merger.DefaultEntryValid` | app/core/merger.py:6-19 | every field of every built-in slot coerces |
| `Merger.DefaultTableValid` | app/core/merger.py:6-19 | the built-in table alone validates as a style catalog |
| `Merger.DefaultHeading1Entry` | app/core/merger.py:10-12 | the built-in `heading_1` slot is SimHei, 16 pt, bold, centred, line spacing 1.5 |
| `Merger.DefaultHeading2Entry` | app/core/merger.py:13-15 | the built-in `heading_2` slot is SimHei, 14 pt, bold, left-aligned, line spacing 1.5 |
| `Merger.DefaultBodyTextEntry` | app/core/merger.py:16-18 | the built-in `body_text` slot is SimSun, 12 pt, line spacing 1.5, justified |
| `Merger.DefaultGlobalEntry` | app/core/merger.py:7-9 | the built-in `global_default` slot is SimSun, 12 pt, line spacing 1.5, black, justified |
| `Merger.GlobalEntryGives` | app/core/merger.py:7-9 | the built-in `global_default` entry validates to `DefaultGlobal`, field by field, with exactly its five keys marked set |
| `Merger.Heading1EntryGives` | app/core/merger.py:10-12 | the built-in `heading_1` entry validates to `DefaultHeading1`, field by field, with exactly its five keys marked set |
| `Merger.Heading2EntryGives` | app/core/merger.py:13-15 | the built-in `heading_2` entry validates to `DefaultHeading2`, field by field, with exactly its five keys marked set |
| `Merger.BodyTextEntryGives` | app/core/merger.py:16-18 | the built-in `body_text` entry validates to `DefaultBodyText`, field by field, with exactly its four keys marked set |
| `Merger.FalsyTiersKeepTable` | app/core/merger.py:42-62 | when all three tiers are falsy the cascade is the built-in table itself, and the merge succeeds |
| `Merger.DefaultSlotResolves` | app/core/merger.py:42-62 | when all three tiers are falsy, a slot the built-in table holds resolves to what its entry validates to |
| `Merger.OmittedSlots` | app/core/merger.py:6-19 | the built-in table has no `heading_3` and no `caption` entry, though both are catalog slots |
| `Merger.OmittedSlotResolves` | app/core/merger.py:42-62 | when all three tiers are falsy, a slot the built-in table omits resolves to an empty `FontStyle` |
| `Merger.BuiltInSlotsResolve` | app/core/merger.py:6-62 | when all three tiers are falsy, `global_default`, `heading_1`, `heading_2` and `body_text` resolve to the table's four styles |
| `Merger.ResolveNoTiers` | app/core/merger.py:6-62 | for any falsy user, hints and preset tiers (None, empty, zero, false), `merge` returns exactly the default catalog: the four built-in styles, and `heading_3` and `caption` empty |
| `Merger.SetFieldKeepsValid` | app/core/merger.py:23-30 | deep-merging one valid plain field into a valid configuration keeps it valid |
| `Merger.FlatTierKeepsValid` | app/core/merger.py:23-30 | deep-merging a tier of slot mappings whose plain fields all coerce keeps a valid configuration valid |
| `Merger.FlatHintTierResolves` | app/core/merger.py:50-62 | a hints tier of valid flat slot entries over a valid base always resolves |
| `Merger.TwoAlignTiersKeepValid` | app/core/merger.py:50-60 | two `align` settings in any letter case that upper-case to valid names keep the configuration valid |
| `Merger.UserAlignWins` | app/core/merger.py:53-60 | an `align` the user sets in any letter case decides the resolved slot's alignment |
| `Merger.UserAlignBeatsHint` | app/core/merger.py:49-60 | when user and hints both set `align` on a slot, the resolved alignment is the user's |
| `Merger.MisspelledAlignRejected` | app/core/merger.py:57-62 | an `align` that is not an alignment name even after upper-casing makes validation fail |
| `Merger.PresetSetsOneField` | app/core/merger.py:45-62 | a preset setting one field of one slot changes that field alone: the others keep their values and set-ness |
| `Merger.PresetWritesField` | app/core/merger.py:45-62 | a preset setting one field of a slot makes that field the preset's coerced value and marks it set |
| `Merger.PresetKeepsField` | app/core/merger.py:45-62 | a preset setting one field of a slot leaves every other field of that slot as before |
| `Merger.ResizedField` | app/core/merger.py:45-62 | a preset setting only `size` gives, field by field, the old slot style with the new size |
| `Merger.PresetResizes` | app/core/merger.py:45-62 | a preset setting only `size` of a slot yields the old slot style with that size |
| `Merger.PresetResizesHeading` | app/core/merger.py:45-62 | a preset giving `heading_1` size 18 yields the built-in heading style at 18 pt |
| `Merger.LowerCaseSpellings` | app/core/merger.py:60 | `center`, `left` and `MIDDLE` upper-case to `CENTER`, `LEFT` and `MIDDLE` |
| `Merger.UserCenterBeatsLeftHint` | app/core/merger.py:49-60 | user `center` over hints `left` on `body_text` resolves to a centred body |
| `Merger.MiddleAlignRejected` | app/core/merger.py:57-62 | a user `align` of `MIDDLE` makes the merge fail validation |
| `PyStr.Strip` | app/engine/llm_engine.py:107 | `strip()` never lengthens the text and leaves no whitespace at either end |
| `PyStr.LeadingSpace` | app/engine/llm_engine.py:107 | the number of whitespace characters the text starts with: all of them are whitespace, and the next character, if any, is not |
| `PyStr.StripIsStretch` | app/engine/llm_engine.py:107 | `strip()` returns the stretch of the text that starts after its leading whitespace and has only whitespace after it; the result is empty exactly when the text is all whitespace |
| `PyStr.StripStretch` | app/engine/llm_engine.py:107 | cutting the leading whitespace and then the trailing whitespace leaves a stretch of the text with only whitespace around it, empty exactly when the text is all whitespace |
| `PyStr.StripPadded` | app/engine/llm_engine.py:107 | stripping whitespace padding around text that has no whitespace at its ends gives that text back |
| `PyStr.Upper` | app/core/merger.py:60 | `upper()` keeps the length and upper-cases each character |
| `PyStr.UpperNormalizes` | app/core/merger.py:60 | an upper-cased string is upper case, and upper-casing it again changes nothing |
| `PyStr.LStripChar` | app/engine/renderer.py:22 | `lstrip('#')` removes exactly the leading run of '#' |
| `PyStr.Slice` | app/core/template_loader.py:60 | Python slicing clamps at the end: `s[i:j]` is `s[i..j]` within bounds and never longer than `j - i` |
| `LlmEngine.Unfence` | app/engine/llm_engine.py:108-111 | the two cuts are independent: the text is its leading `` ```json `` if it has one, then the result, then its trailing `` ``` `` if it has one; the result is never longer |
| `LlmEngine.FencesApart` | app/engine/llm_engine.py:108-111 | the text after a `` ```json `` opener ends in `` ``` `` exactly when the whole text does, because the opener and the closer cannot overlap |
| `LlmEngine.UnfenceFenced` | app/engine/llm_engine.py:108-111 | a body wrapped in a ```` ```json ```` fence and a closing fence comes back unchanged |
| `LlmEngine.UnfencePlainOpener` | app/engine/llm_engine.py:108-111 | a body fenced with a plain `` ``` `` opener loses only its closing fence and keeps the opener |
| `LlmEngine.StripFences` | app/engine/llm_engine.py:107-111 | the stripped reply is its `` ```json `` opener if any, then the cleaned text, then its `` ``` `` closer if any; cleaning never lengthens the reply |
| `LlmEngine.StripFencesUnwraps` | app/engine/llm_engine.py:107-111 | a fenced body padded with whitespace cleans to exactly that body |
| `LlmEngine.StripFencesBlank` | app/engine/llm_engine.py:107-111 | a blank reply, all whitespace, cleans to the empty text |
| `LlmEngine.StripFencesPlain` | app/engine/llm_engine.py:107-111 | a reply without fences cleans to its stripped text |
| `LlmEngine.StripFencesKeepsPlainOpener` | app/engine/llm_engine.py:151-154 | a padded reply fenced with a plain `` ``` `` opener cleans to the body behind that opener, so the text handed to the JSON parser starts with a backtick |
| `LlmEngine.ParseLayoutConfig` | app/engine/llm_engine.py:100-116 | a failed call or an unparsable reply gives the empty dictionary; otherwise the parsed JSON value, whatever its kind |
| `LlmEngine.PolishContent` | app/engine/llm_engine.py:147-167 | a list reply is returned as is; a mapping with `blocks` gives that entry; a failed call, an unparsable reply or any other value gives one `body_text` block with the raw text |
| `LlmEngine.FallbackBlockParses` | app/engine/llm_engine.py:163 | the fallback block validates as a body-text block holding the raw text |
| `LlmEngine.PolishFallbackIsOneBlock` | app/engine/llm_engine.py:158-167 | on failure the polished content is a one-element list whose block is body text with the raw text |
| `LlmEngine.LoadFontConfig` | app/engine/llm_engine.py:26-61 | a present file gives its own mapping; a missing file gives the built-in fallback mapping; a read failure gives the error line |
| `LlmEngine.FallbackSizesAgreeWithDefaults` | app/engine/llm_engine.py:53-55 | the fallback sizes 三号, 四号 and 小四 equal the built-in heading 1, heading 2 and body sizes |
| `LlmEngine.FallbackFontsAgreeWithDefaults` | app/engine/llm_engine.py:47-52 | 黑体 and 宋体 map to the built-in heading and body families, and no two Chinese names share a system font |
| `LlmEngine.ExamplesAreFlatValidTiers` | app/engine/llm_engine.py:88-92 | the prompt's example reply, and its corrected form, are hint tiers whose every declared field coerces |
| `LlmEngine.HintFontApplies` | app/core/merger.py:50-51 | a hints tier naming a slot's `family` sets the resolved slot's font |
| `LlmEngine.HintWithoutFontKeepsTable` | app/core/merger.py:50-51 | a hints tier that does not name a slot's `family` leaves the table's font |
| `LlmEngine.PromptExampleNamesNoFont` | app/engine/llm_engine.py:88-92 | the example reply names no `family` for `body_text`, whose built-in font is SimSun |
| `LlmEngine.PromptExampleFontIgnored` | app/engine/llm_engine.py:88-92 | a reply copying the example resolves, and body text stays SimSun although the example asks for KaiTi |
| `LlmEngine.CorrectedExampleFontApplies` | app/engine/llm_engine.py:88-92 | the example written with the record's own keys resolves to KaiTi body text |
| `LlmEngine.ExampleResolves` | app/engine/llm_engine.py:88-92 | any hints reply of valid flat slot entries resolves |
| `Renderer.ParseHex` | app/engine/renderer.py:24 | `int(s, 16)` gives a number exactly when the text is non-empty and all hexadecimal digits, in either case; the number is the positional base-16 value `HexValue` of the digits, below 16 to the power of its length |
| `Renderer.HexValueSnoc` | app/engine/renderer.py:24 | appending a digit multiplies the value read so far by 16 and adds the digit |
| `Renderer.ParseHexIgnoresCase` | app/engine/renderer.py:24 | reading digits does not depend on their case: `int(s.upper(), 16) == int(s, 16)` |
| `Renderer.HexToRgb` | app/engine/renderer.py:18-26 | every result is a byte triple; an absent or empty colour, and any colour whose text after the leading `#` does not start with five or six hexadecimal digits, is black; otherwise each channel is the base-16 value of its two-character slice, in either letter case |
| `Renderer.SlicesRead` | app/engine/renderer.py:22-24 | the three two-character slices all read as numbers exactly when the text has at least five characters and its first five or six are hexadecimal digits |
| `Renderer.RgbToHex` | app/engine/renderer.py:18-26 | a byte colour is spelled as six hexadecimal digits |
| `Renderer.HexToRgbRoundTrip` | app/engine/renderer.py:18-26 | decoding the six-digit spelling of any byte colour, after any number of leading `#`, gives that colour back |
| `Renderer.RedFromHex` | app/engine/renderer.py:18-26 | `FF0000` decodes to red |
| `Renderer.LowerCaseRedFromHex` | app/engine/renderer.py:18-26 | `#ff0000`, in lower case, decodes to red |
| `Renderer.LowerFF` | app/engine/renderer.py:24 | `ff` reads as 255 |
| `Renderer.MalformedHexIsBlack` | app/engine/renderer.py:23-26 | a non-hexadecimal colour decodes to black instead of failing |
| `Renderer.ApplyParagraphFormat` | app/engine/renderer.py:28-51 | the paragraph's new format is the old one with the style's alignment, and its non-zero line spacing and spacing before and after, written over it |
| `Renderer.ApplyRunFormat` | app/engine/renderer.py:53-76 | the run keeps its text and its new format is the old one with the style's non-zero size, non-None bold and italic, colour and non-empty family (on both the Western and East Asian font) written over it |
| `Renderer.FormattedShowsStyle` | app/engine/renderer.py:28-76 | a fresh paragraph and run formatted by a style show every style field except the falsy ones, with the colour decoded and the East Asian font equal to the font name |
| `Renderer.FormattingIdempotent` | app/engine/renderer.py:28-76 | formatting twice with the same style equals formatting once |
| `Renderer.EmptyStyleFormatsNothing` | app/engine/renderer.py:28-76 | an empty style leaves paragraph and run formats unchanged |
| `Renderer.Document.AddParagraph` | app/engine/renderer.py:107 | adding a paragraph appends it after all existing ones |
| `Renderer.WithOverrideReads` | app/engine/renderer.py:100 | the override's explicitly set fields, including explicit None, replace the base's; other fields stay the base's, and the set fields are the union |
| `Renderer.EffectiveStyleCases` | app/engine/renderer.py:90-102 | without an override the block uses its type's slot; with an override and no slot, the override; with both, each field comes from the override if set there, else from the slot |
| `Renderer.BaseStyleIsOwnSlot` | app/engine/renderer.py:91 | a block's base style is the catalog slot of its own type (hooks have none) and never depends on `global_default` |
| `Renderer.EmptyOverrideKeepsBase` | app/engine/renderer.py:100 | an override that sets nothing leaves the base style as it was |
| `Renderer.OverrideIdempotent` | app/engine/renderer.py:100 | applying the same override twice equals applying it once |
| `Renderer.OverrideKeepsValid` | app/engine/renderer.py:100 | overriding a valid style with a valid override gives a valid style |
| `Renderer.EmittedDepictsBlocks` | app/engine/renderer.py:85-125 | the document has one paragraph per non-table block, in block order, and paragraph i depicts the i-th such block |
| `Renderer.TextBlocksOnePerParagraph` | app/engine/renderer.py:105-116 | for text blocks, paragraph i holds one run with block i's text, formatted by the block's effective style when there is one |
| `Renderer.ImageHookPlaceholder` | app/engine/renderer.py:118-123 | an image hook gives one centred paragraph with a red run reading the placeholder and the source data |
| `Renderer.RenderBlock` | app/engine/renderer.py:87-125 | handling one block appends exactly that block's paragraphs to the document |
| `Renderer.Render` | app/engine/renderer.py:78-129 | rendering gives a new document whose paragraphs are exactly those emitted for the blocks in order |
| `TemplateLoader.Sanitize` | app/core/template_loader.py:23 | the safe name is no longer than the identifier and holds only letters and digits, '_' and '-' |
| `TemplateLoader.SanitizeAppend` | app/core/template_loader.py:23 | sanitising distributes over concatenation |
| `TemplateLoader.SanitizeKeepsSafe` | app/core/template_loader.py:23 | an identifier made only of allowed characters is kept as it is |
| `TemplateLoader.SanitizeIdempotent` | app/core/template_loader.py:23 | sanitising a safe name changes nothing |
| `TemplateLoader.SanitizeIsSubsequence` | app/core/template_loader.py:23 | the safe name is the identifier with the disallowed characters dropped: a subsequence that keeps every allowed character |
| `TemplateLoader.SanitizeBlocksTraversal` | app/core/template_loader.py:22-24 | the file name can hold no '/', '\\' or '.', so it cannot leave the rules directory |
| `TemplateLoader.GetPresetRules` | app/core/template_loader.py:17-37 | a preset is returned iff the sanitised file exists and parses, and it is that file's content |
| `TemplateLoader.SameCleanNameSamePreset` | app/core/template_loader.py:22-28 | identifiers that sanitise alike load the same preset |
| `TemplateLoader.Chunks` | app/core/template_loader.py:59-60 | the text is cut into ceil(length / 1000) chunks |
| `TemplateLoader.ChunkSizes` | app/core/template_loader.py:59-60 | every chunk is non-empty and at most 1000 characters, and all but the last are exactly 1000 |
| `TemplateLoader.ChunksJoin` | app/core/template_loader.py:58-60 | the chunks joined in order give the text back, and there are none iff the text is empty |
| `TemplateLoader.PagesTextJoinsLines` | app/core/template_loader.py:54-56 | the extracted text is the pages' texts in page order, each followed by one newline |
| `TemplateLoader.PagesTextLength` | app/core/template_loader.py:54-56 | the extracted text is as long as the pages' texts together plus one character per page |
| `TemplateLoader.IngestUserRuleFile` | app/core/template_loader.py:39-71 | a path not ending in `.pdf` and an unreadable PDF store nothing and report failure; a readable PDF hands the store the chunks of its page texts and reports the store's outcome |
| `TemplateLoader.IngestedTextIsWhole` | app/core/template_loader.py:52-60 | the stored chunks together are exactly the extracted text, each at most 1000 characters |
| `Pipeline.FailedLayoutParseIsNoHints` | app/api/endpoints.py:65-67 | a failed or unparsable layout reply, and a request that skips the layout call, merge exactly as if no hints were given |
| `Pipeline.MissingPresetIsNoPreset` | app/api/endpoints.py:53 | a school without a readable preset merges exactly as with no preset |
| `Pipeline.FallbackDocumentIsOneParagraph` | app/api/endpoints.py:76-100 | when polishing falls back, the document is one body-text block with the raw text and renders as one paragraph of one run holding that text, styled by `body_text` |

The three `Pipeline` rows cite the request handler only to say in which order it joins the core stages; the handler itself is not modelled, and these lemmas compose the stage models above.

## Left out

- Aliasing: `merge` and `_deep_update` change the caller's dictionaries in place, so nested preset and hint dictionaries end up shared with the result. The model works on values, so it does not capture that sharing.
- Dictionary order: Python dictionaries keep insertion order, but the update's result does not depend on it. JSON mappings are Dafny maps.
- Validation errors: pydantic reports every invalid field at once and gives its location. The model reports one error, whose kind is the only part that counts.
- Lax coercion: the model accepts null for any field, a string for a text field, a number or a boolean (as 1 or 0) for a number field, a boolean or the number 0 or 1 for a flag, and an exact enumeration name for `align`. pydantic's other lax coercions are left out: numeric strings for numbers, strings such as `"true"`, `"yes"` or `"0"` for flags, and an `align` given as an enumeration member rather than its name.
- Numbers: floats are modelled as `real`, and rounding is not modelled.
- Block ids: `uuid.uuid4()` is random. Fresh ids come from a `newId` parameter, and the default meta dictionary is not modelled.
- `Renderer.ApplyParagraphFormat`: `space_before` and `space_after` are written through `Pt(...)` into unsigned measures (app/engine/renderer.py:48-51), so python-docx raises `ValueError` on a negative or out-of-range value and the whole render fails. The model writes the value as given, so `Render` returns a document for such a style. The schema accepts any number there.
- `Renderer.ApplyRunFormat`: the same holds for `size` (app/engine/renderer.py:59-60). A negative or out-of-range size makes python-docx raise, while the model records it.
- `Renderer.HexToRgb`: Python's `int(x, 16)` also accepts surrounding whitespace, a sign and `_` between digits, and a negative channel then makes `RGBColor` raise. The model reads plain digit strings only and treats anything else as a failed conversion, which decodes to black.
- PyStr.Upper: only ASCII letters are upper-cased. Python's `str.upper` also maps some non-ASCII letters onto ASCII ones, such as 'ı' (U+0131) to 'I' and 'ſ' (U+017F) to 'S'.
- Merger.MisspelledAlignRejected: because of that, Python accepts `"rıght"` (with a dotless ı) as `RIGHT` at app/core/merger.py:60, while in the model its upper-cased form is not an alignment name and the merge fails. The lemma is exact for ASCII spellings only.
- `str.isalnum`: the character test is a parameter of the sanitiser, so Unicode letter and digit classes are not fixed.
- `if not style: return` at the top of the two format helpers never fires, because both callers already test the style. The model omits it.
- The paragraph is built as a record and then appended, whereas python-docx appends it first and formats it after. No reader sees the difference. The docx XML, `doc.save` and the output path are not modelled.
- Outside calls become parameters:
  - the language-model calls (`LlmReply`);
  - the JSON parser (`parse`);
  - PDF reading (`PdfRead`, where a page whose text extraction fails counts as a failed read);
  - whether the store accepted the chunks (`stored`).

  Retrieval search, the vector store itself and serialising the font table with `json.dumps` are not modelled; the font table is kept as the mapping it serialises.
- Logging, the debug `print` calls, FastAPI request handling, temporary files and `app/engine/rag_engine.py` are not part of this model.

## Findings

| source | as written | input that shows it | evidently intended | confidence | as-written member | corrected member |
|---|---|---|---|---|---|---|
| app/engine/llm_engine.py:88-92 | the example reply in the layout prompt uses the keys `font_name`, `font_size` and `is_bold`, which `FontStyle` does not declare (`family`, `size` and `bold`, app/models/schema.py:26-28), so a reply that copies it has those keys silently ignored | a reply equal to the example, which asks for KaiTi body text | the example should use the record's own keys, so that its font, size and weight take effect | high, not executed | `LlmEngine.PromptExampleFontIgnored` | `LlmEngine.CorrectedExampleFontApplies` |
