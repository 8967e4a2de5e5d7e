/**
 * The formatter's data model: content-type and alignment enumerations, the
 * atomic style record `FontStyle`, the six-slot style catalog
 * `GlobalStyleConfig`, content blocks and the document description (DSL),
 * together with the validation that turns parsed JSON into these records.
 *
 * Validation follows the record declarations: every `FontStyle` field is
 * optional and defaults to None, an absent catalog slot defaults to an empty
 * `FontStyle`, keys the schema does not declare are ignored, and a value of
 * the wrong kind rejects the whole record.
 */
module Schema {
  import opened Wrappers
  import opened JsonValues
  import opened PyStr

  // ---------------------------------------------------------------- enums

  datatype ContentType = Heading1 | Heading2 | Heading3 | BodyText | Caption | ImageHook | TableHook

  function ContentTypeName(t: ContentType): string
  {
    match t
    case Heading1 => "heading_1"
    case Heading2 => "heading_2"
    case Heading3 => "heading_3"
    case BodyText => "body_text"
    case Caption => "caption"
    case ImageHook => "image_hook"
    case TableHook => "table_hook"
  }

  const ContentTypeNames: set<string> :=
    {"heading_1", "heading_2", "heading_3", "body_text", "caption", "image_hook", "table_hook"}

  /** `ContentType(s)`: exactly the seven tag strings name a content type, each a different one. */
  function ContentTypeFromName(s: string): (r: Option<ContentType>)
    ensures r.Some? <==> s in ContentTypeNames
    ensures r.Some? ==> ContentTypeName(r.value) == s
    ensures forall t :: ContentTypeName(t) == s ==> r == Some(t)
  {
    if s == "heading_1" then Some(Heading1)
    else if s == "heading_2" then Some(Heading2)
    else if s == "heading_3" then Some(Heading3)
    else if s == "body_text" then Some(BodyText)
    else if s == "caption" then Some(Caption)
    else if s == "image_hook" then Some(ImageHook)
    else if s == "table_hook" then Some(TableHook)
    else None
  }

  datatype Alignment = Left | Center | Right | Justify

  function AlignmentName(a: Alignment): string
  {
    match a
    case Left => "LEFT"
    case Center => "CENTER"
    case Right => "RIGHT"
    case Justify => "JUSTIFY"
  }

  const AlignmentNames: set<string> := {"LEFT", "CENTER", "RIGHT", "JUSTIFY"}

  /** `Alignment(s)`: exactly the four upper-case names are accepted (the lookup is case-sensitive). */
  function AlignmentFromName(s: string): (r: Option<Alignment>)
    ensures r.Some? <==> s in AlignmentNames
    ensures r.Some? ==> AlignmentName(r.value) == s
    ensures forall a :: AlignmentName(a) == s ==> r == Some(a)
  {
    if s == "LEFT" then Some(Left)
    else if s == "CENTER" then Some(Center)
    else if s == "RIGHT" then Some(Right)
    else if s == "JUSTIFY" then Some(Justify)
    else None
  }

  /** Every alignment name is written in upper case, so upper-casing it is the identity. */
  lemma AlignmentNamesUpper(a: Alignment)
    ensures IsUpper(AlignmentName(a)) && Upper(AlignmentName(a)) == AlignmentName(a)
  {
    UpperOfUpper(AlignmentName(a));
  }

  // ----------------------------------------------------------- FontStyle

  datatype StyleField = Family | Size | Bold | Italic | Align | LineSpacing | Color | SpaceBefore | SpaceAfter

  /** The fields in declaration order, which is also the order in which validation reports them. */
  const StyleFields: seq<StyleField> :=
    [Family, Size, Bold, Italic, Align, LineSpacing, Color, SpaceBefore, SpaceAfter]

  /** Where a field stands in declaration order. */
  function FieldIndex(f: StyleField): (i: nat)
    ensures i < |StyleFields| && StyleFields[i] == f
  {
    match f
    case Family => 0
    case Size => 1
    case Bold => 2
    case Italic => 3
    case Align => 4
    case LineSpacing => 5
    case Color => 6
    case SpaceBefore => 7
    case SpaceAfter => 8
  }

  function FieldName(f: StyleField): string
  {
    match f
    case Family => "family"
    case Size => "size"
    case Bold => "bold"
    case Italic => "italic"
    case Align => "align"
    case LineSpacing => "line_spacing"
    case Color => "color"
    case SpaceBefore => "space_before"
    case SpaceAfter => "space_after"
  }

  /** The value one field of a `FontStyle` holds, whatever its type; `NoValue` is Python's None. */
  datatype StyleValue = NoValue | Text(s: string) | Number(n: real) | Flag(b: bool) | Aligned(a: Alignment)

  /**
   * The atomic style record. Every field is optional. `fieldsSet` records
   * which fields were given explicitly when the record was built (pydantic's
   * `model_fields_set`), even when the value given was None.
   */
  datatype FontStyle = FontStyle(
    family: Option<string>,
    size: Option<real>,
    bold: Option<bool>,
    italic: Option<bool>,
    align: Option<Alignment>,
    lineSpacing: Option<real>,
    color: Option<string>,
    spaceBefore: Option<real>,
    spaceAfter: Option<real>,
    fieldsSet: set<StyleField>)
  {
    function Get(f: StyleField): StyleValue
    {
      match f
      case Family => if family.Some? then Text(family.value) else NoValue
      case Size => if size.Some? then Number(size.value) else NoValue
      case Bold => if bold.Some? then Flag(bold.value) else NoValue
      case Italic => if italic.Some? then Flag(italic.value) else NoValue
      case Align => if align.Some? then Aligned(align.value) else NoValue
      case LineSpacing => if lineSpacing.Some? then Number(lineSpacing.value) else NoValue
      case Color => if color.Some? then Text(color.value) else NoValue
      case SpaceBefore => if spaceBefore.Some? then Number(spaceBefore.value) else NoValue
      case SpaceAfter => if spaceAfter.Some? then Number(spaceAfter.value) else NoValue
    }

    /** A field that was never given holds its default, None. */
    ghost predicate Valid()
    {
      forall f :: f !in fieldsSet ==> Get(f) == NoValue
    }
  }

  /** `FontStyle()`: nothing given, every field None. */
  const EmptyStyle: FontStyle := FontStyle(None, None, None, None, None, None, None, None, None, {})

  /** The default record has every field unset. */
  lemma EmptyStyleHasNoValues(f: StyleField)
    ensures EmptyStyle.Valid() && EmptyStyle.Get(f) == NoValue && f !in EmptyStyle.fieldsSet
  {
  }

  /** A record is determined by the values of its fields and the set of fields given explicitly. */
  lemma FieldsDetermineStyle(a: FontStyle, b: FontStyle)
    requires forall f :: a.Get(f) == b.Get(f)
    requires a.fieldsSet == b.fieldsSet
    ensures a == b
  {
    assert a.Get(Family) == b.Get(Family) && a.Get(Size) == b.Get(Size) && a.Get(Bold) == b.Get(Bold);
    assert a.Get(Italic) == b.Get(Italic) && a.Get(Align) == b.Get(Align) && a.Get(LineSpacing) == b.Get(LineSpacing);
    assert a.Get(Color) == b.Get(Color) && a.Get(SpaceBefore) == b.Get(SpaceBefore) && a.Get(SpaceAfter) == b.Get(SpaceAfter);
  }

  // ---------------------------------------------------------- validation

  /** Where validation failed: the path of keys leading to the offending value. */
  datatype ValidationError = MissingField(path: seq<string>) | InvalidValue(path: seq<string>)

  /** Whether and to what a JSON value coerces for one `FontStyle` field; None means it does not. */
  function CoerceField(f: StyleField, v: Json): Option<StyleValue>
  {
    if v == JNull then Some(NoValue)
    else
      match f
      case Family | Color =>
        if v.JStr? then Some(Text(v.s)) else None
      case Size | LineSpacing | SpaceBefore | SpaceAfter =>
        if v.JNum? then Some(Number(v.n))
        else if v.JBool? then Some(Number(if v.b then 1.0 else 0.0))
        else None
      case Bold | Italic =>
        if v.JBool? then Some(Flag(v.b))
        else if v.JNum? && (v.n == 0.0 || v.n == 1.0) then Some(Flag(v.n == 1.0))
        else None
      case Align =>
        if v.JStr? && AlignmentFromName(v.s).Some? then Some(Aligned(AlignmentFromName(v.s).value)) else None
  }

  /** Each alignment's own name is accepted for `align` and read back as that alignment. */
  lemma CoerceAlignmentName(a: Alignment)
    ensures CoerceField(Align, JStr(AlignmentName(a))) == Some(Aligned(a))
  {
    assert AlignmentFromName(AlignmentName(a)) == Some(a);
  }

  predicate Coercible(m: map<string, Json>, f: StyleField)
  {
    FieldName(f) in m ==> CoerceField(f, m[FieldName(f)]).Some?
  }

  /** The value field `f` takes when the record is built from `m` and `f` is coercible. */
  function FieldFrom(m: map<string, Json>, f: StyleField): StyleValue
    requires Coercible(m, f)
  {
    if FieldName(f) in m then CoerceField(f, m[FieldName(f)]).value else NoValue
  }

  /** The first field, in the order given, whose value in `m` does not coerce. */
  function FirstInvalid(m: map<string, Json>, fs: seq<StyleField>): (r: Option<StyleField>)
    ensures r.None? <==> forall i :: 0 <= i < |fs| ==> Coercible(m, fs[i])
    ensures r.Some? ==> r.value in fs && !Coercible(m, r.value)
  {
    if fs == [] then None
    else if !Coercible(m, fs[0]) then Some(fs[0])
    else FirstInvalid(m, fs[1..])
  }

  function AsText(v: StyleValue): Option<string> { if v.Text? then Some(v.s) else None }
  function AsNumber(v: StyleValue): Option<real> { if v.Number? then Some(v.n) else None }
  function AsFlag(v: StyleValue): Option<bool> { if v.Flag? then Some(v.b) else None }
  function AsAlignment(v: StyleValue): Option<Alignment> { if v.Aligned? then Some(v.a) else None }

  /** The record built from a mapping whose declared fields all coerce. */
  function StyleFrom(m: map<string, Json>): FontStyle
    requires forall f :: Coercible(m, f)
  {
    FontStyle(AsText(FieldFrom(m, Family)), AsNumber(FieldFrom(m, Size)), AsFlag(FieldFrom(m, Bold)),
              AsFlag(FieldFrom(m, Italic)), AsAlignment(FieldFrom(m, Align)), AsNumber(FieldFrom(m, LineSpacing)),
              AsText(FieldFrom(m, Color)), AsNumber(FieldFrom(m, SpaceBefore)), AsNumber(FieldFrom(m, SpaceAfter)),
              set f | f in StyleFields && FieldName(f) in m)
  }

  lemma StyleFromField(m: map<string, Json>, f: StyleField)
    requires forall g :: Coercible(m, g)
    ensures StyleFrom(m).Get(f) == FieldFrom(m, f)
    ensures f in StyleFrom(m).fieldsSet <==> FieldName(f) in m
  {
    assert StyleFields[FieldIndex(f)] == f;
    var v := FieldFrom(m, f);
    match f
    case Family | Color => assert v.NoValue? || v.Text?;
    case Size | LineSpacing | SpaceBefore | SpaceAfter => assert v.NoValue? || v.Number?;
    case Bold | Italic => assert v.NoValue? || v.Flag?;
    case Align => assert v.NoValue? || v.Aligned?;
  }

  /**
   * `FontStyle(**m)`: the record is built exactly when every declared field
   * present in `m` coerces; each field then holds its coerced value (None
   * when absent), the fields given are those whose names are keys of `m`,
   * and keys that name no field play no part.
   */
  function FontStyleFromJson(m: map<string, Json>, path: seq<string>): (r: Result<FontStyle, ValidationError>)
    ensures r.Ok? <==> forall f :: Coercible(m, f)
    ensures r.Ok? ==> r.value.Valid()
    ensures r.Ok? ==> forall f :: (f in r.value.fieldsSet <==> FieldName(f) in m)
    ensures r.Ok? ==> forall f :: r.value.Get(f) == FieldFrom(m, f)
  {
    match FirstInvalid(m, StyleFields)
    case Some(f) => Err(InvalidValue(path + [FieldName(f)]))
    case None =>
      assert forall f :: Coercible(m, f) by {
        forall f ensures Coercible(m, f) { assert StyleFields[FieldIndex(f)] == f; }
      }
      assert forall f :: StyleFrom(m).Get(f) == FieldFrom(m, f) && (f in StyleFrom(m).fieldsSet <==> FieldName(f) in m) by {
        forall f ensures StyleFrom(m).Get(f) == FieldFrom(m, f) && (f in StyleFrom(m).fieldsSet <==> FieldName(f) in m) {
          StyleFromField(m, f);
        }
      }
      Ok(StyleFrom(m))
  }

  /** Two mappings that agree on every declared field name validate to the same outcome. */
  lemma FontStyleFromAgreeing(m: map<string, Json>, m': map<string, Json>, path: seq<string>)
    requires forall f :: (FieldName(f) in m <==> FieldName(f) in m')
    requires forall f :: FieldName(f) in m ==> m[FieldName(f)] == m'[FieldName(f)]
    ensures FontStyleFromJson(m, path) == FontStyleFromJson(m', path)
  {
    FirstInvalidAgrees(m, m', StyleFields);
    assert (set f | f in StyleFields && FieldName(f) in m) == (set f | f in StyleFields && FieldName(f) in m');
  }

  lemma {:induction false} FirstInvalidAgrees(m: map<string, Json>, m': map<string, Json>, fs: seq<StyleField>)
    requires forall f :: (FieldName(f) in m <==> FieldName(f) in m')
    requires forall f :: FieldName(f) in m ==> m[FieldName(f)] == m'[FieldName(f)]
    ensures FirstInvalid(m, fs) == FirstInvalid(m', fs)
  {
    if fs != [] {
      assert Coercible(m, fs[0]) == Coercible(m', fs[0]);
      FirstInvalidAgrees(m, m', fs[1..]);
    }
  }

  /** A key that names no `FontStyle` field does not change the record built (pydantic ignores extra keys). */
  lemma FontStyleIgnoresUnknownKeys(m: map<string, Json>, path: seq<string>, key: string, v: Json)
    requires forall f :: FieldName(f) != key
    ensures FontStyleFromJson(m[key := v], path) == FontStyleFromJson(m, path)
  {
    FontStyleFromAgreeing(m[key := v], m, path);
  }

  // --------------------------------------------------------- the catalog

  /** The style catalog: one optional `FontStyle` per slot. */
  datatype GlobalStyleConfig = GlobalStyleConfig(
    globalDefault: Option<FontStyle>,
    heading1: Option<FontStyle>,
    heading2: Option<FontStyle>,
    heading3: Option<FontStyle>,
    bodyText: Option<FontStyle>,
    caption: Option<FontStyle>)

  const SlotNames: seq<string> := ["global_default", "heading_1", "heading_2", "heading_3", "body_text", "caption"]

  /** `getattr(config, name, None)`: the slot of that name, or None when there is no such slot. */
  function Attr(c: GlobalStyleConfig, name: string): Option<FontStyle>
  {
    if name == "global_default" then c.globalDefault
    else if name == "heading_1" then c.heading1
    else if name == "heading_2" then c.heading2
    else if name == "heading_3" then c.heading3
    else if name == "body_text" then c.bodyText
    else if name == "caption" then c.caption
    else None
  }

  /** A catalog is determined by what its six slots hold. */
  lemma CatalogOfSlots(a: GlobalStyleConfig, g: Option<FontStyle>, h1: Option<FontStyle>, h2: Option<FontStyle>,
                       h3: Option<FontStyle>, b: Option<FontStyle>, c: Option<FontStyle>)
    requires Attr(a, "global_default") == g
    requires Attr(a, "heading_1") == h1 && Attr(a, "heading_2") == h2 && Attr(a, "heading_3") == h3
    requires Attr(a, "body_text") == b && Attr(a, "caption") == c
    ensures a == GlobalStyleConfig(g, h1, h2, h3, b, c)
  {
  }

  /** All six slots hold a style record. */
  predicate Populated(c: GlobalStyleConfig)
  {
    forall name :: name in SlotNames ==> Attr(c, name).Some?
  }

  /** How one slot validates: absent gives the empty default record, None stays None, a mapping is validated, anything else is rejected. */
  function SlotFromJson(config: map<string, Json>, name: string): (r: Result<Option<FontStyle>, ValidationError>)
    ensures name !in config ==> r == Ok(Some(EmptyStyle))
    ensures r.Ok? && name in config ==> (config[name] == JNull && r.value.None?) || config[name].JObj?
    ensures name in config && config[name].JObj? ==>
              r == (match FontStyleFromJson(config[name].fields, [name])
                    case Ok(s) => Ok(Some(s))
                    case Err(e) => Err(e))
  {
    if name !in config then Ok(Some(EmptyStyle))
    else match config[name]
      case JNull => Ok(None)
      case JObj(m) =>
        var s :- FontStyleFromJson(m, [name]);
        Ok(Some(s))
      case _ => Err(InvalidValue([name]))
  }

  /** `GlobalStyleConfig(**config)`: each slot validated in declaration order; keys that name no slot are ignored. */
  function CatalogFromJson(config: map<string, Json>): (r: Result<GlobalStyleConfig, ValidationError>)
    ensures r.Ok? <==> forall name :: name in SlotNames ==> SlotFromJson(config, name).Ok?
    ensures r.Ok? ==> forall name :: name in SlotNames ==> Attr(r.value, name) == SlotFromJson(config, name).value
  {
    var g :- SlotFromJson(config, "global_default");
    var h1 :- SlotFromJson(config, "heading_1");
    var h2 :- SlotFromJson(config, "heading_2");
    var h3 :- SlotFromJson(config, "heading_3");
    var b :- SlotFromJson(config, "body_text");
    var c :- SlotFromJson(config, "caption");
    Ok(GlobalStyleConfig(g, h1, h2, h3, b, c))
  }

  /** A catalog built from a mapping with no None slot value has every slot populated; a missing slot gets the empty record. */
  lemma CatalogPopulated(config: map<string, Json>)
    requires NullFree(config)
    requires CatalogFromJson(config).Ok?
    ensures Populated(CatalogFromJson(config).value)
  {
    var c := CatalogFromJson(config).value;
    forall name | name in SlotNames
      ensures Attr(c, name).Some?
    {
      if name in config {
        assert config[name] != JNull;
      }
    }
  }

  // --------------------------------------------------- blocks and the DSL

  /** One content block; `styleOverride` is the block-local style, applied over the catalog's. */
  datatype ContentBlock = ContentBlock(
    id: string,
    contentType: ContentType,
    text: string,
    sourceData: Option<string>,
    styleOverride: Option<FontStyle>)

  function OptionalText(m: map<string, Json>, key: string, path: seq<string>): Result<Option<string>, ValidationError>
  {
    if key !in m || m[key] == JNull then Ok(None)
    else if m[key].JStr? then Ok(Some(m[key].s))
    else Err(InvalidValue(path + [key]))
  }

  /** `key` is absent or holds a string. */
  predicate TextOrAbsent(m: map<string, Json>, key: string)
  {
    key !in m || m[key].JStr?
  }

  /** `key` is absent, None or a string. */
  predicate OptionalTextOk(m: map<string, Json>, key: string)
  {
    key !in m || m[key] == JNull || m[key].JStr?
  }

  /**
   * What `ContentBlock(**j)` accepts: a mapping whose `type` names a content
   * type, whose `id` and `text`, when present, are strings, whose
   * `source_data` is absent, None or a string, and whose `style_override` is
   * absent, None or a mapping every declared field of which coerces.
   */
  predicate BlockValidates(j: Json)
  {
    && j.JObj?
    && "type" in j.fields && j.fields["type"].JStr? && j.fields["type"].s in ContentTypeNames
    && TextOrAbsent(j.fields, "id") && TextOrAbsent(j.fields, "text")
    && OptionalTextOk(j.fields, "source_data")
    && ("style_override" !in j.fields || j.fields["style_override"] == JNull ||
        (j.fields["style_override"].JObj? && forall f :: Coercible(j.fields["style_override"].fields, f)))
  }

  /**
   * `ContentBlock(**j)`: `type` is required and must name a content type;
   * `id` defaults to a fresh identifier, `text` to "", `source_data` and
   * `style_override` to None.
   */
  function ContentBlockFromJson(j: Json, freshId: string, path: seq<string>): (r: Result<ContentBlock, ValidationError>)
    ensures r.Ok? <==> BlockValidates(j)
    ensures r.Ok? ==> ContentTypeName(r.value.contentType) == j.fields["type"].s
    ensures r.Ok? ==> r.value.id == (if "id" in j.fields then j.fields["id"].s else freshId)
    ensures r.Ok? ==> r.value.text == (if "text" in j.fields then j.fields["text"].s else "")
    ensures r.Ok? ==> r.value.sourceData == (if "source_data" in j.fields && j.fields["source_data"].JStr?
                                             then Some(j.fields["source_data"].s) else None)
    ensures r.Ok? && ("style_override" !in j.fields || j.fields["style_override"] == JNull) ==> r.value.styleOverride == None
    ensures r.Ok? && "style_override" in j.fields && j.fields["style_override"].JObj? ==>
              r.value.styleOverride.Some? &&
              FontStyleFromJson(j.fields["style_override"].fields, path + ["style_override"]) == Ok(r.value.styleOverride.value)
    ensures r.Ok? && r.value.styleOverride.Some? ==> r.value.styleOverride.value.Valid()
  {
    if !j.JObj? then Err(InvalidValue(path))
    else
      var m := j.fields;
      var id :- if "id" !in m then Ok(freshId)
                else if m["id"].JStr? then Ok(m["id"].s)
                else Err(InvalidValue(path + ["id"]));
      var t :- if "type" !in m then Err(MissingField(path + ["type"]))
               else if m["type"].JStr? && ContentTypeFromName(m["type"].s).Some? then Ok(ContentTypeFromName(m["type"].s).value)
               else Err(InvalidValue(path + ["type"]));
      var text :- if "text" !in m then Ok("")
                  else if m["text"].JStr? then Ok(m["text"].s)
                  else Err(InvalidValue(path + ["text"]));
      var sourceData :- OptionalText(m, "source_data", path);
      var styleOverride :- if "style_override" !in m || m["style_override"] == JNull then Ok(None)
                           else if m["style_override"].JObj? then
                             (match FontStyleFromJson(m["style_override"].fields, path + ["style_override"])
                              case Ok(s) => Ok(Some(s))
                              case Err(e) => Err(e))
                           else Err(InvalidValue(path + ["style_override"]));
      Ok(ContentBlock(id, t, text, sourceData, styleOverride))
  }

  function IndexName(i: nat): string
  {
    if i < 10 then [(48 + i) as char] else IndexName(i / 10) + [(48 + i % 10) as char]
  }

  function BlocksFrom(items: seq<Json>, start: nat, parse: (Json, nat) -> Result<ContentBlock, ValidationError>): (r: Result<seq<ContentBlock>, ValidationError>)
    ensures r.Ok? ==> |r.value| == |items|
    decreases |items|
  {
    if items == [] then Ok([])
    else
      var b :- parse(items[0], start);
      var rest :- BlocksFrom(items[1..], start + 1, parse);
      Ok([b] + rest)
  }

  /** The list validates exactly when every element does, and then each element becomes the block at the same position. */
  lemma {:induction false} BlocksFromPointwise(items: seq<Json>, start: nat, parse: (Json, nat) -> Result<ContentBlock, ValidationError>)
    ensures var r := BlocksFrom(items, start, parse);
            && (r.Ok? <==> forall i :: 0 <= i < |items| ==> parse(items[i], start + i).Ok?)
            && (r.Ok? ==> forall i :: 0 <= i < |items| ==> parse(items[i], start + i) == Ok(r.value[i]))
    decreases |items|
  {
    if items != [] {
      BlocksFromPointwise(items[1..], start + 1, parse);
      assert forall i :: 1 <= i < |items| ==> items[i] == items[1..][i - 1] && start + i == (start + 1) + (i - 1);
    }
  }

  /** The same, for a list numbered from zero. */
  lemma BlocksFromAll(items: seq<Json>, parse: (Json, nat) -> Result<ContentBlock, ValidationError>)
    ensures var r := BlocksFrom(items, 0, parse);
            && (r.Ok? <==> forall i :: 0 <= i < |items| ==> parse(items[i], i).Ok?)
            && (r.Ok? ==> forall i :: 0 <= i < |items| ==> parse(items[i], i) == Ok(r.value[i]))
  {
    var r := BlocksFrom(items, 0, parse);
    BlocksFromPointwise(items, 0, parse);
    if r.Ok? {
      forall i | 0 <= i < |items| ensures parse(items[i], i) == Ok(r.value[i]) {
        assert parse(items[i], 0 + i) == Ok(r.value[i]);
      }
    } else {
      var i :| 0 <= i < |items| && !parse(items[i], 0 + i).Ok?;
      assert !parse(items[i], i).Ok?;
    }
  }


  /** The document description: free-form metadata, the resolved catalog (mandatory), and the blocks in rendering order. */
  datatype DocumentDSL = DocumentDSL(
    meta: map<string, Json>,
    styleConfig: GlobalStyleConfig,
    contentBlocks: seq<ContentBlock>)

  /**
   * How the block at position `i` is validated: its path in error reports is
   * `content_blocks.i`, and `newId(i)` stands for the random identifier it
   * receives when it has none.
   */
  function BlockParser(newId: nat -> string): (Json, nat) -> Result<ContentBlock, ValidationError>
  {
    (j: Json, i: nat) => ContentBlockFromJson(j, newId(i), ["content_blocks", IndexName(i)])
  }

  /**
   * `DocumentDSL(meta=..., style_config=..., content_blocks=blocks)`: the
   * blocks must be a list, each element becomes the block at the same
   * position, and the catalog is taken as given.
   */
  function DocumentFromParts(meta: map<string, Json>, styleConfig: GlobalStyleConfig, blocks: Json, newId: nat -> string): (r: Result<DocumentDSL, ValidationError>)
    ensures r.Ok? <==> blocks.JArr? && forall i :: 0 <= i < |blocks.items| ==> BlockParser(newId)(blocks.items[i], i).Ok?
    ensures r.Ok? ==> r.value.styleConfig == styleConfig && r.value.meta == meta
    ensures r.Ok? ==> |r.value.contentBlocks| == |blocks.items|
    ensures r.Ok? ==> forall i :: 0 <= i < |blocks.items| ==> BlockParser(newId)(blocks.items[i], i) == Ok(r.value.contentBlocks[i])
  {
    if !blocks.JArr? then Err(InvalidValue(["content_blocks"]))
    else
      BlocksFromAll(blocks.items, BlockParser(newId));
      match BlocksFrom(blocks.items, 0, BlockParser(newId))
      case Err(e) => Err(e)
      case Ok(bs) => Ok(DocumentDSL(meta, styleConfig, bs))
  }
}
