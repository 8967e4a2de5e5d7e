/**
 * The document renderer: every content block of a document description is
 * turned into paragraphs of an abstract word-processing document. A block's
 * style is the catalog slot named after its type, with the block's own
 * override applied field by field over it; text blocks become one paragraph
 * holding one run of the block's text, image hooks a centred red placeholder,
 * and table hooks nothing. The document is a growing sequence of paragraph
 * records; the byte-level file format is not modelled.
 */
module Renderer {
  import opened Wrappers
  import opened PyStr
  import opened Schema

  // ------------------------------------------------------------- colours

  datatype Rgb = Rgb(red: nat, green: nat, blue: nat)

  const Black: Rgb := Rgb(0, 0, 0)
  const Red: Rgb := Rgb(255, 0, 0)

  /** A colour whose three channels each fit in a byte. */
  predicate IsByteRgb(c: Rgb)
  {
    c.red < 256 && c.green < 256 && c.blue < 256
  }

  /** `int(c, 16)` for one character: the value of a hexadecimal digit of either case, None for any other character. */
  function HexDigit(c: char): (r: Option<nat>)
    ensures r.Some? ==> r.value < 16
  {
    if '0' <= c <= '9' then Some(c as nat - '0' as nat)
    else if 'a' <= c <= 'f' then Some(c as nat - 'a' as nat + 10)
    else if 'A' <= c <= 'F' then Some(c as nat - 'A' as nat + 10)
    else None
  }

  predicate AllHex(s: string)
  {
    forall i :: 0 <= i < |s| ==> HexDigit(s[i]).Some?
  }

  function Pow16(n: nat): nat
  {
    if n == 0 then 1 else 16 * Pow16(n - 1)
  }

  /** The value of a digit character; zero for a non-digit, which `HexValue` is never asked about. */
  function DigitValue(c: char): nat
  {
    if HexDigit(c).Some? then HexDigit(c).value else 0
  }

  /** The positional reading of a digit string: each digit weighted by 16 to the power of the number of digits after it. */
  function HexValue(s: string): nat
    decreases |s|
  {
    if s == [] then 0 else DigitValue(s[0]) * Pow16(|s| - 1) + HexValue(s[1..])
  }

  /** Appending a digit multiplies the value read so far by 16 and adds the digit. */
  lemma {:induction false} HexValueSnoc(t: string, c: char)
    ensures HexValue(t + [c]) == HexValue(t) * 16 + DigitValue(c)
    decreases |t|
  {
    if t == [] {
      assert t + [c] == [c];
      assert [c][1..] == [];
    } else {
      var u := t + [c];
      assert u[0] == t[0] && u[1..] == t[1..] + [c];
      HexValueSnoc(t[1..], c);
      assert Pow16(|u| - 1) == 16 * Pow16(|t| - 1);
      ShiftDigit(DigitValue(t[0]), Pow16(|t| - 1), HexValue(t[1..]), DigitValue(c));
    }
  }

  /** The arithmetic of one Horner step. */
  lemma ShiftDigit(d: nat, p: nat, v: nat, x: nat)
    ensures d * (16 * p) + (v * 16 + x) == (d * p + v) * 16 + x
  {
    assert d * (16 * p) == (d * p) * 16;
  }

  /**
   * `int(s, 16)` over plain digit strings: a number exactly when `s` is
   * non-empty and all hexadecimal digits, in either case; the number is the
   * positional reading of the digits, below 16 to the power of their count.
   */
  function ParseHex(s: string): (r: Option<nat>)
    ensures r.Some? <==> s != [] && AllHex(s)
    ensures r.Some? ==> r.value == HexValue(s)
    ensures r.Some? ==> r.value < Pow16(|s|)
    decreases |s|
  {
    if s == [] then None
    else if |s| == 1 then
      assert s == [] + [s[0]];
      HexValueSnoc([], s[0]);
      HexDigit(s[0])
    else
      var init := s[..|s| - 1];
      assert forall i :: 0 <= i < |init| ==> init[i] == s[i];
      match (ParseHex(init), HexDigit(s[|s| - 1]))
      case (Some(hi), Some(lo)) =>
        assert hi * 16 + lo < Pow16(|s|) by {
          assert hi <= Pow16(|init|) - 1;
          assert hi * 16 <= (Pow16(|init|) - 1) * 16;
        }
        assert s == init + [s[|s| - 1]];
        HexValueSnoc(init, s[|s| - 1]);
        Some(hi * 16 + lo)
      case _ => None
  }

  /** Upper-casing a character changes neither whether it is a digit nor its value. */
  lemma HexDigitIgnoresCase(c: char)
    ensures HexDigit(UpperChar(c)) == HexDigit(c)
  {
  }

  /** Reading digits does not depend on their case: `int("ff", 16) == int("FF", 16)`. */
  lemma {:induction false} ParseHexIgnoresCase(s: string)
    ensures ParseHex(Upper(s)) == ParseHex(s)
  {
    var u := Upper(s);
    forall i | 0 <= i < |s| ensures HexDigit(u[i]) == HexDigit(s[i]) {
      HexDigitIgnoresCase(s[i]);
    }
    assert AllHex(u) <==> AllHex(s);
    HexValueIgnoresCase(s);
  }

  /** The value of a digit string does not depend on the case of its digits. */
  lemma {:induction false} HexValueIgnoresCase(s: string)
    ensures HexValue(Upper(s)) == HexValue(s)
    decreases |s|
  {
    if s != [] {
      var u := Upper(s);
      assert u[1..] == Upper(s[1..]);
      HexDigitIgnoresCase(s[0]);
      HexValueIgnoresCase(s[1..]);
    }
  }

  /** The colour text with every leading '#' removed. */
  function HexBody(color: string): string
  {
    LStripChar(color, '#')
  }

  /**
   * `_hex_to_rgb`: an absent or empty colour is black; otherwise the leading
   * '#' characters are removed and the three two-character slices at 0, 2
   * and 4 are read as hexadecimal numbers. A slice that is empty or holds a
   * non-digit makes the whole colour black; it never fails.
   */
  function HexToRgb(color: Option<string>): (r: Rgb)
    ensures IsByteRgb(r)
    ensures color.None? || color.value == [] ==> r == Black
    ensures color.Some? && color.value != [] ==>
              var h := HexBody(color.value);
              !(|h| >= 5 && AllHex(h[..if |h| < 6 then |h| else 6])) ==> r == Black
    ensures color.Some? && color.value != [] ==>
              var h := HexBody(color.value);
              |h| >= 5 && AllHex(h[..if |h| < 6 then |h| else 6]) ==>
                r == Rgb(HexValue(Slice(h, 0, 2)), HexValue(Slice(h, 2, 4)), HexValue(Slice(h, 4, 6)))
  {
    if color.None? || color.value == [] then Black
    else
      var h := HexBody(color.value);
      SlicesRead(h);
      match (ParseHex(Slice(h, 0, 2)), ParseHex(Slice(h, 2, 4)), ParseHex(Slice(h, 4, 6)))
      case (Some(r), Some(g), Some(b)) => Rgb(r, g, b)
      case _ => Black
  }

  /**
   * The three two-character slices all read as numbers exactly when the text
   * has at least five characters and its first five or six are digits.
   */
  lemma SlicesRead(h: string)
    ensures (|h| >= 5 && AllHex(h[..if |h| < 6 then |h| else 6])) <==>
              (ParseHex(Slice(h, 0, 2)).Some? && ParseHex(Slice(h, 2, 4)).Some? && ParseHex(Slice(h, 4, 6)).Some?)
  {
    var k := if |h| < 6 then |h| else 6;
    var red, green, blue := Slice(h, 0, 2), Slice(h, 2, 4), Slice(h, 4, 6);
    if |h| >= 5 && AllHex(h[..k]) {
      forall i | 0 <= i < k ensures HexDigit(h[i]).Some? {
        assert h[..k][i] == h[i];
      }
      assert AllHex(red) && red != [];
      assert AllHex(green) && green != [];
      assert blue == h[4..k];
      assert AllHex(blue) && blue != [];
    }
    if ParseHex(red).Some? && ParseHex(green).Some? && ParseHex(blue).Some? {
      assert |h| >= 5 by { assert blue != []; }
      assert h[..k] == red + green + blue;
      forall i | 0 <= i < k ensures HexDigit(h[..k][i]).Some? {
        if i < 2 { assert h[..k][i] == red[i]; }
        else if i < 4 { assert h[..k][i] == green[i - 2]; }
        else { assert h[..k][i] == blue[i - 4]; }
      }
    }
  }

  /** The digit character for a value below 16, upper case. */
  function HexChar(k: nat): (c: char)
    requires k < 16
    ensures HexDigit(c) == Some(k)
  {
    if k < 10 then ('0' as nat + k) as char else ('A' as nat + k - 10) as char
  }

  /** Two hexadecimal digits for one byte. */
  function HexPair(n: nat): (s: string)
    requires n < 256
    ensures |s| == 2 && ParseHex(s) == Some(n)
  {
    var s := [HexChar(n / 16), HexChar(n % 16)];
    assert s[..1] == [HexChar(n / 16)];
    s
  }

  /** The six-digit hexadecimal spelling of a colour, the inverse of `HexToRgb`. */
  function RgbToHex(c: Rgb): (s: string)
    requires IsByteRgb(c)
    ensures |s| == 6 && AllHex(s)
  {
    var s := HexPair(c.red) + HexPair(c.green) + HexPair(c.blue);
    assert forall i :: 0 <= i < 2 ==> s[i] == HexPair(c.red)[i];
    assert forall i :: 2 <= i < 4 ==> s[i] == HexPair(c.green)[i - 2];
    assert forall i :: 4 <= i < 6 ==> s[i] == HexPair(c.blue)[i - 4];
    s
  }

  /** Any run of '#' characters is stripped from the front of a text that does not itself start with '#'. */
  lemma {:induction false} HashesStripped(hashes: nat, s: string)
    requires s == [] || s[0] != '#'
    ensures HexBody(seq(hashes, _ => '#') + s) == s
    decreases hashes
  {
    var x := seq(hashes, _ => '#') + s;
    if hashes > 0 {
      assert x[0] == '#';
      assert x[1..] == seq(hashes - 1, _ => '#') + s;
      HashesStripped(hashes - 1, s);
    } else {
      assert x == s;
    }
  }

  /** Every byte colour, spelled in six hexadecimal digits behind any number of '#', reads back as itself. */
  lemma HexToRgbRoundTrip(c: Rgb, hashes: nat)
    requires IsByteRgb(c)
    ensures HexToRgb(Some(seq(hashes, _ => '#') + RgbToHex(c))) == c
  {
    var s := RgbToHex(c);
    assert HexDigit(s[0]).Some?;
    HashesStripped(hashes, s);
    var color := seq(hashes, _ => '#') + s;
    assert color != [] by { assert |color| == hashes + 6; }
    SpellingSlices(c);
    HexToRgbOfSlices(color, c);
  }

  /** The three two-character slices of a colour's spelling are its channels' digit pairs. */
  lemma SpellingSlices(c: Rgb)
    requires IsByteRgb(c)
    ensures Slice(RgbToHex(c), 0, 2) == HexPair(c.red)
    ensures Slice(RgbToHex(c), 2, 4) == HexPair(c.green)
    ensures Slice(RgbToHex(c), 4, 6) == HexPair(c.blue)
  {
  }

  /** A colour whose three two-digit slices read as the channels of `c` is `c`. */
  lemma HexToRgbOfSlices(color: string, c: Rgb)
    requires color != []
    requires ParseHex(Slice(HexBody(color), 0, 2)) == Some(c.red)
    requires ParseHex(Slice(HexBody(color), 2, 4)) == Some(c.green)
    requires ParseHex(Slice(HexBody(color), 4, 6)) == Some(c.blue)
    ensures HexToRgb(Some(color)) == c
  {
  }

  /** Pure red, "FF0000", reads as (255, 0, 0). */
  lemma RedFromHex()
    ensures HexToRgb(Some("FF0000")) == Red
  {
    var s := "FF0000";
    assert RgbToHex(Red) == s by {
      assert HexPair(255) == "FF";
      assert HexPair(0) == "00";
    }
    HexToRgbRoundTrip(Red, 0);
    assert seq(0, _ => '#') + s == s;
  }

  /** Lower-case digits read the same: "#ff0000" is red. */
  lemma LowerCaseRedFromHex()
    ensures HexToRgb(Some("#ff0000")) == Red
  {
    LowerRedBody("#ff0000");
    LowerRedSlices(HexBody("#ff0000"));
    HexToRgbOfSlices("#ff0000", Red);
  }

  /** Stripping the '#' from "#ff0000" leaves "ff0000". */
  lemma LowerRedBody(color: string)
    requires color == "#ff0000"
    ensures HexBody(color) == "ff0000"
  {
    assert color[0] == '#' && color[1] != '#';
    assert color[1..] == "ff0000";
  }

  /** The slices of "ff0000" read as 255, 0 and 0. */
  lemma LowerRedSlices(h: string)
    requires h == "ff0000"
    ensures ParseHex(Slice(h, 0, 2)) == Some(255)
    ensures ParseHex(Slice(h, 2, 4)) == Some(0)
    ensures ParseHex(Slice(h, 4, 6)) == Some(0)
  {
    assert Slice(h, 0, 2) == "ff" && Slice(h, 2, 4) == "00" && Slice(h, 4, 6) == "00";
    LowerFF();
    assert HexPair(0) == "00";
  }

  /** "ff" reads as 255, as "FF" does. */
  lemma LowerFF()
    ensures ParseHex("ff") == Some(255)
  {
    assert Upper("ff") == "FF" by {
      var u := Upper("ff");
      assert u[0] == 'F' && u[1] == 'F';
    }
    ParseHexIgnoresCase("ff");
    assert HexPair(255) == "FF";
  }

  /** A colour with a non-digit among its first six characters, such as "zz0000", is read as black. */
  lemma MalformedHexIsBlack()
    ensures HexToRgb(Some("zz0000")) == Black
  {
    var h := HexBody("zz0000");
    assert h == "zz0000";
    assert HexDigit(h[..6][0]).None?;
  }

  // --------------------------------------------------- paragraphs and runs

  /** The paragraph settings the renderer writes. */
  datatype ParagraphFormat = ParagraphFormat(
    alignment: Option<Alignment>,
    lineSpacing: Option<real>,
    spaceBefore: Option<real>,
    spaceAfter: Option<real>)

  /** The run settings the renderer writes; `eastAsiaFont` is the font used for Chinese text. */
  datatype RunFormat = RunFormat(
    size: Option<real>,
    bold: Option<bool>,
    italic: Option<bool>,
    color: Option<Rgb>,
    fontName: Option<string>,
    eastAsiaFont: Option<string>)

  /** A fresh paragraph and a fresh run: nothing set, everything inherited. */
  const PlainParagraph: ParagraphFormat := ParagraphFormat(None, None, None, None)
  const PlainRun: RunFormat := RunFormat(None, None, None, None, None, None)

  datatype Run = Run(text: string, format: RunFormat)
  datatype Paragraph = Paragraph(format: ParagraphFormat, runs: seq<Run>)

  /** Python truthiness of an optional number: present and not zero. */
  predicate Nonzero(x: Option<real>)
  {
    x.Some? && x.value != 0.0
  }

  /** Python truthiness of an optional string: present and not empty. */
  predicate NonEmpty(x: Option<string>)
  {
    x.Some? && x.value != []
  }

  /**
   * What `_apply_paragraph_format` leaves on a paragraph: each of the four
   * alignments maps onto the same paragraph alignment, and a spacing is
   * written only when it is truthy; whatever is not written stays.
   */
  function ParagraphFormatted(before: ParagraphFormat, style: FontStyle): ParagraphFormat
  {
    ParagraphFormat(
      if style.align.Some? then style.align else before.alignment,
      if Nonzero(style.lineSpacing) then style.lineSpacing else before.lineSpacing,
      if Nonzero(style.spaceBefore) then style.spaceBefore else before.spaceBefore,
      if Nonzero(style.spaceAfter) then style.spaceAfter else before.spaceAfter)
  }

  /**
   * What `_apply_run_format` leaves on a run: size and colour only when
   * truthy, bold and italic whenever given (False included), and a truthy
   * family as both the Latin and the East Asian font name.
   */
  function RunFormatted(before: RunFormat, style: FontStyle): RunFormat
  {
    RunFormat(
      if Nonzero(style.size) then style.size else before.size,
      if style.bold.Some? then style.bold else before.bold,
      if style.italic.Some? then style.italic else before.italic,
      if NonEmpty(style.color) then Some(HexToRgb(style.color)) else before.color,
      if NonEmpty(style.family) then style.family else before.fontName,
      if NonEmpty(style.family) then style.family else before.eastAsiaFont)
  }

  /** A paragraph of the document under construction, whose settings are assigned one by one. */
  class DocParagraph {
    var alignment: Option<Alignment>
    var lineSpacing: Option<real>
    var spaceBefore: Option<real>
    var spaceAfter: Option<real>

    constructor()
      ensures Format() == PlainParagraph
    {
      alignment := None;
      lineSpacing := None;
      spaceBefore := None;
      spaceAfter := None;
    }

    function Format(): ParagraphFormat
      reads this
    {
      ParagraphFormat(alignment, lineSpacing, spaceBefore, spaceAfter)
    }
  }

  /** A run of text of the document under construction, whose font settings are assigned one by one. */
  class DocRun {
    var text: string
    var size: Option<real>
    var bold: Option<bool>
    var italic: Option<bool>
    var color: Option<Rgb>
    var fontName: Option<string>
    var eastAsiaFont: Option<string>

    constructor(t: string)
      ensures Snapshot() == Run(t, PlainRun)
    {
      text := t;
      size := None;
      bold := None;
      italic := None;
      color := None;
      fontName := None;
      eastAsiaFont := None;
    }

    function Format(): RunFormat
      reads this
    {
      RunFormat(size, bold, italic, color, fontName, eastAsiaFont)
    }

    function Snapshot(): Run
      reads this
    {
      Run(text, Format())
    }
  }

  /** `_apply_paragraph_format`: alignment, line spacing, then the spacing before and after. */
  method ApplyParagraphFormat(p: DocParagraph, style: FontStyle)
    modifies p
    ensures p.Format() == ParagraphFormatted(old(p.Format()), style)
  {
    match style.align {
      case Some(Center) => p.alignment := Some(Center);
      case Some(Right) => p.alignment := Some(Right);
      case Some(Justify) => p.alignment := Some(Justify);
      case Some(Left) => p.alignment := Some(Left);
      case None =>
    }
    if Nonzero(style.lineSpacing) {
      p.lineSpacing := style.lineSpacing;
    }
    if Nonzero(style.spaceBefore) {
      p.spaceBefore := style.spaceBefore;
    }
    if Nonzero(style.spaceAfter) {
      p.spaceAfter := style.spaceAfter;
    }
  }

  /** `_apply_run_format`: size, bold and italic, colour, then the font family for both scripts. */
  method ApplyRunFormat(run: DocRun, style: FontStyle)
    modifies run
    ensures run.text == old(run.text)
    ensures run.Format() == RunFormatted(old(run.Format()), style)
  {
    ghost var before := run.Format();
    if Nonzero(style.size) {
      run.size := style.size;
    }
    if style.bold.Some? {
      run.bold := style.bold;
    }
    if style.italic.Some? {
      run.italic := style.italic;
    }
    assert run.size == RunFormatted(before, style).size;
    assert run.bold == RunFormatted(before, style).bold && run.italic == RunFormatted(before, style).italic;
    if NonEmpty(style.color) {
      run.color := Some(HexToRgb(style.color));
    }
    assert run.color == RunFormatted(before, style).color;
    if NonEmpty(style.family) {
      run.fontName := style.family;
      run.eastAsiaFont := style.family;
    }
  }

  /**
   * What a formatted paragraph and run show for one style field: the
   * setting it is written to, read back as a style value. Colour is read
   * back separately, as it is stored as a colour, not as text.
   */
  function Shown(pf: ParagraphFormat, rf: RunFormat, f: StyleField): StyleValue
  {
    match f
    case Family => if rf.fontName.Some? then Text(rf.fontName.value) else NoValue
    case Size => if rf.size.Some? then Number(rf.size.value) else NoValue
    case Bold => if rf.bold.Some? then Flag(rf.bold.value) else NoValue
    case Italic => if rf.italic.Some? then Flag(rf.italic.value) else NoValue
    case Align => if pf.alignment.Some? then Aligned(pf.alignment.value) else NoValue
    case LineSpacing => if pf.lineSpacing.Some? then Number(pf.lineSpacing.value) else NoValue
    case Color => NoValue
    case SpaceBefore => if pf.spaceBefore.Some? then Number(pf.spaceBefore.value) else NoValue
    case SpaceAfter => if pf.spaceAfter.Some? then Number(pf.spaceAfter.value) else NoValue
  }

  /** The style value Python treats as false: zero for a number, the empty string for text; a False flag is not among them. */
  predicate Falsy(v: StyleValue)
  {
    (v.Number? && v.n == 0.0) || (v.Text? && v.s == [])
  }

  /**
   * Formatting a fresh paragraph and run with a style shows every field of
   * the style except the falsy ones, which are skipped; the colour is the
   * style's colour read as hexadecimal, and the East Asian font is always the
   * Latin font.
   */
  lemma FormattedShowsStyle(style: FontStyle, f: StyleField)
    requires f != Color
    ensures var pf := ParagraphFormatted(PlainParagraph, style);
            var rf := RunFormatted(PlainRun, style);
            && Shown(pf, rf, f) == (if Falsy(style.Get(f)) then NoValue else style.Get(f))
            && rf.color == (if NonEmpty(style.color) then Some(HexToRgb(style.color)) else None)
            && rf.eastAsiaFont == rf.fontName
  {
    match f
    case Family =>
    case Size =>
    case Bold =>
    case Italic =>
    case Align =>
    case LineSpacing =>
    case SpaceBefore =>
    case SpaceAfter =>
  }

  /** Formatting twice with the same style is formatting once. */
  lemma FormattingIdempotent(pf: ParagraphFormat, rf: RunFormat, style: FontStyle)
    ensures ParagraphFormatted(ParagraphFormatted(pf, style), style) == ParagraphFormatted(pf, style)
    ensures RunFormatted(RunFormatted(rf, style), style) == RunFormatted(rf, style)
  {
  }

  /** A style with nothing truthy and no flag or alignment leaves a paragraph and a run exactly as they were. */
  lemma EmptyStyleFormatsNothing(pf: ParagraphFormat, rf: RunFormat)
    ensures ParagraphFormatted(pf, EmptyStyle) == pf
    ensures RunFormatted(rf, EmptyStyle) == rf
  {
  }

  // ------------------------------------------------------ the document

  /** The document: a sequence of paragraphs that only grows. */
  class Document {
    var paragraphs: seq<Paragraph>

    constructor()
      ensures paragraphs == []
    {
      paragraphs := [];
    }

    /** `doc.add_paragraph()`: the paragraph goes to the end. */
    method AddParagraph(p: Paragraph)
      modifies this
      ensures paragraphs == old(paragraphs) + [p]
    {
      paragraphs := paragraphs + [p];
    }
  }

  // ------------------------------------------------------ block styles

  /**
   * `getattr(dsl.style_config, block.type.value, None)`: the catalog slot
   * named after the content type; image and table hooks name no slot and
   * get None.
   */
  function BaseStyle(config: GlobalStyleConfig, t: ContentType): Option<FontStyle>
  {
    Attr(config, ContentTypeName(t))
  }

  /**
   * `base.model_copy(update=override.model_dump(exclude_unset=True))`: every
   * field the override was given explicitly, None included, replaces the
   * base's; every other field keeps the base's value.
   */
  function WithOverride(base: FontStyle, ov: FontStyle): FontStyle
  {
    FontStyle(
      if Family in ov.fieldsSet then ov.family else base.family,
      if Size in ov.fieldsSet then ov.size else base.size,
      if Bold in ov.fieldsSet then ov.bold else base.bold,
      if Italic in ov.fieldsSet then ov.italic else base.italic,
      if Align in ov.fieldsSet then ov.align else base.align,
      if LineSpacing in ov.fieldsSet then ov.lineSpacing else base.lineSpacing,
      if Color in ov.fieldsSet then ov.color else base.color,
      if SpaceBefore in ov.fieldsSet then ov.spaceBefore else base.spaceBefore,
      if SpaceAfter in ov.fieldsSet then ov.spaceAfter else base.spaceAfter,
      base.fieldsSet + ov.fieldsSet)
  }

  /** Field by field, the overridden record reads as the override where it was given and as the base elsewhere; it counts as given what either counts as given. */
  lemma WithOverrideReads(base: FontStyle, ov: FontStyle, f: StyleField)
    ensures WithOverride(base, ov).Get(f) == if f in ov.fieldsSet then ov.Get(f) else base.Get(f)
    ensures WithOverride(base, ov).fieldsSet == base.fieldsSet + ov.fieldsSet
  {
    match f
    case Family =>
    case Size =>
    case Bold =>
    case Italic =>
    case Align =>
    case LineSpacing =>
    case Color =>
    case SpaceBefore =>
    case SpaceAfter =>
  }

  /** The style a block is rendered with: its slot's style, overridden by the block's own where it has one. */
  function EffectiveStyle(config: GlobalStyleConfig, block: ContentBlock): Option<FontStyle>
  {
    var base := BaseStyle(config, block.contentType);
    match block.styleOverride
    case None => base
    case Some(ov) => if base.Some? then Some(WithOverride(base.value, ov)) else Some(ov)
  }

  /**
   * The three cases of the effective style: no override keeps the slot's
   * style; an override over a slot style replaces exactly the fields it
   * names; an override with no slot style is taken alone.
   */
  lemma EffectiveStyleCases(config: GlobalStyleConfig, block: ContentBlock, f: StyleField)
    ensures block.styleOverride.None? ==> EffectiveStyle(config, block) == BaseStyle(config, block.contentType)
    ensures block.styleOverride.Some? && BaseStyle(config, block.contentType).None? ==>
              EffectiveStyle(config, block) == block.styleOverride
    ensures block.styleOverride.Some? && BaseStyle(config, block.contentType).Some? ==>
              && EffectiveStyle(config, block).Some?
              && EffectiveStyle(config, block).value.Get(f) ==
                   (if f in block.styleOverride.value.fieldsSet then block.styleOverride.value.Get(f)
                    else BaseStyle(config, block.contentType).value.Get(f))
  {
    if block.styleOverride.Some? && BaseStyle(config, block.contentType).Some? {
      WithOverrideReads(BaseStyle(config, block.contentType).value, block.styleOverride.value, f);
    }
  }

  /**
   * The base style is the slot of the block's own type and nothing else: the
   * global default is never consulted, and image and table hooks have none.
   */
  lemma BaseStyleIsOwnSlot(config: GlobalStyleConfig, t: ContentType, g: Option<FontStyle>)
    ensures BaseStyle(config.(globalDefault := g), t) == BaseStyle(config, t)
    ensures t == Heading1 ==> BaseStyle(config, t) == config.heading1
    ensures t == Heading2 ==> BaseStyle(config, t) == config.heading2
    ensures t == Heading3 ==> BaseStyle(config, t) == config.heading3
    ensures t == BodyText ==> BaseStyle(config, t) == config.bodyText
    ensures t == Caption ==> BaseStyle(config, t) == config.caption
    ensures t == ImageHook || t == TableHook ==> BaseStyle(config, t).None?
  {
  }

  /** An override that was given nothing leaves the base as it is. */
  lemma EmptyOverrideKeepsBase(base: FontStyle)
    ensures WithOverride(base, EmptyStyle) == base
  {
    var r := WithOverride(base, EmptyStyle);
    forall f ensures r.Get(f) == base.Get(f) {
      WithOverrideReads(base, EmptyStyle, f);
    }
    assert r.fieldsSet == base.fieldsSet;
    FieldsDetermineStyle(r, base);
  }

  /** Applying the same override twice is applying it once. */
  lemma OverrideIdempotent(base: FontStyle, ov: FontStyle)
    ensures WithOverride(WithOverride(base, ov), ov) == WithOverride(base, ov)
  {
    var once := WithOverride(base, ov);
    var twice := WithOverride(once, ov);
    forall f ensures twice.Get(f) == once.Get(f) {
      WithOverrideReads(base, ov, f);
      WithOverrideReads(once, ov, f);
    }
    assert twice.fieldsSet == once.fieldsSet;
    FieldsDetermineStyle(twice, once);
  }

  /** Overriding keeps a record well-formed: a field not given in either record still holds None. */
  lemma OverrideKeepsValid(base: FontStyle, ov: FontStyle)
    requires base.Valid() && ov.Valid()
    ensures WithOverride(base, ov).Valid()
  {
    forall f | f !in WithOverride(base, ov).fieldsSet
      ensures WithOverride(base, ov).Get(f) == NoValue
    {
      WithOverrideReads(base, ov, f);
    }
  }

  // ------------------------------------------------------------ emission

  /** The content types rendered as a paragraph of text. */
  predicate IsTextType(t: ContentType)
  {
    t == Heading1 || t == Heading2 || t == Heading3 || t == BodyText || t == Caption
  }

  /** The placeholder text of an image hook; Python spells an absent source "None". */
  function PlaceholderText(source: Option<string>): string
  {
    "[图片占位符: " + (if source.Some? then source.value else "None") + "]"
  }

  /** The one paragraph a text block or an image hook becomes. */
  function BlockParagraph(config: GlobalStyleConfig, block: ContentBlock): Paragraph
  {
    if IsTextType(block.contentType) then
      var style := EffectiveStyle(config, block);
      Paragraph(if style.Some? then ParagraphFormatted(PlainParagraph, style.value) else PlainParagraph,
                [Run(block.text, if style.Some? then RunFormatted(PlainRun, style.value) else PlainRun)])
    else
      Paragraph(PlainParagraph.(alignment := Some(Center)),
                [Run(PlaceholderText(block.sourceData), PlainRun.(color := Some(Red)))])
  }

  /** What one block adds to the document: one paragraph, or nothing for a table hook. */
  function BlockOutput(config: GlobalStyleConfig, block: ContentBlock): seq<Paragraph>
  {
    if block.contentType == TableHook then [] else [BlockParagraph(config, block)]
  }

  /** The paragraphs a sequence of blocks adds, block after block. */
  function Emitted(config: GlobalStyleConfig, blocks: seq<ContentBlock>): seq<Paragraph>
    decreases |blocks|
  {
    if blocks == [] then [] else Emitted(config, blocks[..|blocks| - 1]) + BlockOutput(config, blocks[|blocks| - 1])
  }

  /** The blocks that are drawn, in order: every block but the table hooks. */
  function Drawn(blocks: seq<ContentBlock>): (r: seq<ContentBlock>)
    ensures |r| <= |blocks|
    ensures forall i :: 0 <= i < |r| ==> r[i].contentType != TableHook
    decreases |blocks|
  {
    if blocks == [] then []
    else if blocks[0].contentType == TableHook then Drawn(blocks[1..])
    else [blocks[0]] + Drawn(blocks[1..])
  }

  lemma {:induction false} DrawnAppend(a: seq<ContentBlock>, b: seq<ContentBlock>)
    ensures Drawn(a + b) == Drawn(a) + Drawn(b)
    decreases |a|
  {
    if a != [] {
      assert (a + b)[1..] == a[1..] + b;
      DrawnAppend(a[1..], b);
    } else {
      assert a + b == b;
    }
  }

  /** `ps` holds, in order, the paragraph of each block of `bs`. */
  predicate Depicts(config: GlobalStyleConfig, ps: seq<Paragraph>, bs: seq<ContentBlock>)
  {
    |ps| == |bs| && forall i :: 0 <= i < |bs| ==> ps[i] == BlockParagraph(config, bs[i])
  }

  /** Depictions concatenate. */
  lemma DepictsAppend(config: GlobalStyleConfig, ps: seq<Paragraph>, bs: seq<ContentBlock>, qs: seq<Paragraph>, cs: seq<ContentBlock>)
    requires Depicts(config, ps, bs) && Depicts(config, qs, cs)
    ensures Depicts(config, ps + qs, bs + cs)
  {
    forall i | 0 <= i < |bs + cs|
      ensures (ps + qs)[i] == BlockParagraph(config, (bs + cs)[i])
    {
      if i < |bs| {
        assert (ps + qs)[i] == ps[i] && (bs + cs)[i] == bs[i];
      } else {
        assert (ps + qs)[i] == qs[i - |bs|] && (bs + cs)[i] == cs[i - |bs|];
      }
    }
  }

  /**
   * The document holds one paragraph per drawn block, in the blocks' order:
   * the i-th paragraph is the one the i-th block that is not a table hook
   * becomes.
   */
  lemma {:induction false} EmittedDepictsBlocks(config: GlobalStyleConfig, blocks: seq<ContentBlock>)
    ensures Depicts(config, Emitted(config, blocks), Drawn(blocks))
    decreases |blocks|
  {
    if blocks != [] {
      var init := blocks[..|blocks| - 1];
      var last := blocks[|blocks| - 1];
      EmittedDepictsBlocks(config, init);
      assert blocks == init + [last];
      DrawnAppend(init, [last]);
      assert Drawn([last]) == if last.contentType == TableHook then [] else [last] by {
        assert [last][1..] == [];
      }
      assert Emitted(config, blocks) == Emitted(config, init) + BlockOutput(config, last);
      DepictsAppend(config, Emitted(config, init), Drawn(init), BlockOutput(config, last), Drawn([last]));
    }
  }

  /** A document of text blocks only gets one paragraph per block, each holding exactly that block's text in one run, formatted by its effective style. */
  lemma TextBlocksOnePerParagraph(config: GlobalStyleConfig, blocks: seq<ContentBlock>, i: nat)
    requires forall j :: 0 <= j < |blocks| ==> IsTextType(blocks[j].contentType)
    requires i < |blocks|
    ensures |Emitted(config, blocks)| == |blocks|
    ensures var p := Emitted(config, blocks)[i];
            var style := EffectiveStyle(config, blocks[i]);
            && |p.runs| == 1 && p.runs[0].text == blocks[i].text
            && (style.Some? ==> p.format == ParagraphFormatted(PlainParagraph, style.value)
                                && p.runs[0].format == RunFormatted(PlainRun, style.value))
  {
    DrawnAllText(blocks);
    EmittedDepictsBlocks(config, blocks);
  }

  /** Without table hooks, every block is drawn. */
  lemma {:induction false} DrawnAllText(blocks: seq<ContentBlock>)
    requires forall j :: 0 <= j < |blocks| ==> blocks[j].contentType != TableHook
    ensures Drawn(blocks) == blocks
    decreases |blocks|
  {
    if blocks != [] {
      DrawnAllText(blocks[1..]);
    }
  }

  /** An image hook becomes one centred paragraph holding the red placeholder, whatever its style. */
  lemma ImageHookPlaceholder(config: GlobalStyleConfig, block: ContentBlock)
    requires block.contentType == ImageHook
    ensures BlockOutput(config, block) ==
              [Paragraph(ParagraphFormat(Some(Center), None, None, None),
                         [Run(PlaceholderText(block.sourceData), RunFormat(None, None, None, Some(Red), None, None))])]
  {
  }

  /**
   * One pass of the render loop: the block's style is its slot's, with the
   * block override applied over it, and the block adds its paragraph, if it
   * has one, to the end of the document.
   */
  method RenderBlock(doc: Document, config: GlobalStyleConfig, block: ContentBlock)
    modifies doc
    ensures doc.paragraphs == old(doc.paragraphs) + BlockOutput(config, block)
  {
    var baseStyle := Attr(config, ContentTypeName(block.contentType));
    var activeStyle := baseStyle;
    if block.styleOverride.Some? {
      if activeStyle.Some? {
        activeStyle := Some(WithOverride(activeStyle.value, block.styleOverride.value));
      } else {
        activeStyle := block.styleOverride;
      }
    }
    assert activeStyle == EffectiveStyle(config, block);
    if IsTextType(block.contentType) {
      var p := new DocParagraph();
      if activeStyle.Some? {
        ApplyParagraphFormat(p, activeStyle.value);
      }
      var run := new DocRun(block.text);
      if activeStyle.Some? {
        ApplyRunFormat(run, activeStyle.value);
      }
      doc.AddParagraph(Paragraph(p.Format(), [run.Snapshot()]));
    } else if block.contentType == ImageHook {
      var p := new DocParagraph();
      p.alignment := Some(Center);
      var run := new DocRun(PlaceholderText(block.sourceData));
      run.color := Some(Red);
      doc.AddParagraph(Paragraph(p.Format(), [run.Snapshot()]));
    }
  }

  /**
   * `render`: walks the blocks in order and renders each; table hooks add
   * nothing. Saving the file is not modelled.
   */
  method Render(dsl: DocumentDSL) returns (doc: Document)
    ensures fresh(doc)
    ensures doc.paragraphs == Emitted(dsl.styleConfig, dsl.contentBlocks)
  {
    doc := new Document();
    var blocks := dsl.contentBlocks;
    var i := 0;
    while i < |blocks|
      invariant 0 <= i <= |blocks|
      invariant doc.paragraphs == Emitted(dsl.styleConfig, blocks[..i])
    {
      RenderBlock(doc, dsl.styleConfig, blocks[i]);
      assert blocks[..i + 1][..i] == blocks[..i];
      i := i + 1;
    }
    assert blocks[..i] == blocks;
  }
}
