/**
 * The rule-template loader: the static preset of a school is looked up by a
 * file name made safe from the school identifier, and a user's PDF rule file
 * is turned into text that is cut into fixed-size chunks for the retrieval
 * store. The file system, the PDF reader and the store are given as values.
 */
module TemplateLoader {
  import opened Wrappers
  import opened JsonValues
  import opened PyStr

  // ----------------------------------------------------- the safe name

  /** The characters kept in a file name; `alnum` stands for `str.isalnum`. */
  predicate Allowed(c: char, alnum: char -> bool)
  {
    alnum(c) || c == '_' || c == '-'
  }

  /** `"".join(c for c in school_id if c.isalnum() or c in ('_', '-'))`. */
  function Sanitize(schoolId: string, alnum: char -> bool): (r: string)
    ensures |r| <= |schoolId|
    ensures forall i :: 0 <= i < |r| ==> Allowed(r[i], alnum)
    decreases |schoolId|
  {
    if schoolId == [] then []
    else (if Allowed(schoolId[0], alnum) then [schoolId[0]] else []) + Sanitize(schoolId[1..], alnum)
  }

  /** `sub` is `s` with some characters left out, the rest in their order. */
  predicate IsSubsequence(sub: string, s: string)
    decreases |s|
  {
    if sub == [] then true
    else if s == [] then false
    else (sub[0] == s[0] && IsSubsequence(sub[1..], s[1..])) || IsSubsequence(sub, s[1..])
  }

  /** Cleaning a concatenation cleans each part. */
  lemma {:induction false} SanitizeAppend(a: string, b: string, alnum: char -> bool)
    ensures Sanitize(a + b, alnum) == Sanitize(a, alnum) + Sanitize(b, alnum)
    decreases |a|
  {
    if a == [] {
      assert a + b == b;
    } else {
      assert (a + b)[0] == a[0];
      assert (a + b)[1..] == a[1..] + b;
      SanitizeAppend(a[1..], b, alnum);
    }
  }

  /** A name made only of allowed characters is kept as it is. */
  lemma {:induction false} SanitizeKeepsSafe(s: string, alnum: char -> bool)
    requires forall i :: 0 <= i < |s| ==> Allowed(s[i], alnum)
    ensures Sanitize(s, alnum) == s
    decreases |s|
  {
    if s != [] {
      SanitizeKeepsSafe(s[1..], alnum);
    }
  }

  /** Cleaning is idempotent: a clean name stays clean. */
  lemma SanitizeIdempotent(s: string, alnum: char -> bool)
    ensures Sanitize(Sanitize(s, alnum), alnum) == Sanitize(s, alnum)
  {
    SanitizeKeepsSafe(Sanitize(s, alnum), alnum);
  }

  /** Cleaning only leaves characters out: the kept ones appear in their original order, and every allowed character is kept. */
  lemma {:induction false} SanitizeIsSubsequence(s: string, alnum: char -> bool)
    ensures IsSubsequence(Sanitize(s, alnum), s)
    ensures forall i :: 0 <= i < |s| && Allowed(s[i], alnum) ==> s[i] in Sanitize(s, alnum)
    decreases |s|
  {
    if s != [] {
      SanitizeIsSubsequence(s[1..], alnum);
      var rest := Sanitize(s[1..], alnum);
      if Allowed(s[0], alnum) {
        assert Sanitize(s, alnum) == [s[0]] + rest;
        assert ([s[0]] + rest)[1..] == rest;
      } else {
        assert Sanitize(s, alnum) == rest;
      }
      forall i | 0 <= i < |s| && Allowed(s[i], alnum)
        ensures s[i] in Sanitize(s, alnum)
      {
        if i > 0 {
          assert s[i] == s[1..][i - 1];
        }
      }
    }
  }

  /**
   * When neither '/', '\' nor '.' counts as alphanumeric, a clean name holds
   * none of them, so the preset path cannot leave the rules directory.
   */
  lemma SanitizeBlocksTraversal(schoolId: string, alnum: char -> bool)
    requires !alnum('/') && !alnum('\\') && !alnum('.')
    ensures '/' !in Sanitize(schoolId, alnum) && '\\' !in Sanitize(schoolId, alnum) && '.' !in Sanitize(schoolId, alnum)
  {
  }

  // ------------------------------------------------------ static presets

  /** What a preset file holds: parsed JSON, or content that cannot be read or parsed. */
  datatype PresetFile = Parsed(data: Json) | Unparsable

  /** The preset file name of a school, inside the rules directory. */
  function PresetFileName(schoolId: string, alnum: char -> bool): string
  {
    Sanitize(schoolId, alnum) + ".json"
  }

  /**
   * `get_preset_rules`: the parsed preset file named after the cleaned
   * identifier; a missing file, or one that cannot be read or parsed, gives
   * None and never an error. `rules` stands for the rules directory.
   */
  function GetPresetRules(schoolId: string, rules: map<string, PresetFile>, alnum: char -> bool): (r: Option<Json>)
    ensures r.Some? <==> PresetFileName(schoolId, alnum) in rules && rules[PresetFileName(schoolId, alnum)].Parsed?
    ensures r.Some? ==> r.value == rules[PresetFileName(schoolId, alnum)].data
  {
    var name := PresetFileName(schoolId, alnum);
    if name !in rules then None
    else match rules[name]
      case Parsed(data) => Some(data)
      case Unparsable => None
  }

  /** Identifiers that differ only in characters the cleaning drops find the same preset. */
  lemma SameCleanNameSamePreset(a: string, b: string, rules: map<string, PresetFile>, alnum: char -> bool)
    requires Sanitize(a, alnum) == Sanitize(b, alnum)
    ensures GetPresetRules(a, rules, alnum) == GetPresetRules(b, rules, alnum)
  {
  }

  // ------------------------------------------------------------ chunking

  const ChunkSize: nat := 1000

  /** `[text[i:i+1000] for i in range(0, len(text), 1000)]`. */
  function Chunks(text: string): (r: seq<string>)
    ensures |r| == (|text| + ChunkSize - 1) / ChunkSize
  {
    seq((|text| + ChunkSize - 1) / ChunkSize, k requires 0 <= k => Slice(text, k * ChunkSize, k * ChunkSize + ChunkSize))
  }

  /** The texts of a sequence of chunks, one after another. */
  function Join(chunks: seq<string>): string
    decreases |chunks|
  {
    if chunks == [] then [] else chunks[0] + Join(chunks[1..])
  }

  /** Each chunk is non-empty and at most 1000 characters long, and every chunk but the last is exactly 1000 long. */
  lemma ChunkSizes(text: string, k: nat)
    requires k < |Chunks(text)|
    ensures 0 < |Chunks(text)[k]| <= ChunkSize
    ensures k < |Chunks(text)| - 1 ==> |Chunks(text)[k]| == ChunkSize
  {
    assert k * ChunkSize < |text|;
    if k < |Chunks(text)| - 1 {
      assert (k + 1) * ChunkSize < |text|;
    }
  }

  /** The first chunk, then the chunks of what follows it. */
  lemma ChunksStep(text: string)
    requires text != []
    ensures var n := if |text| < ChunkSize then |text| else ChunkSize;
            Chunks(text) == [text[..n]] + Chunks(text[n..])
  {
    var n := if |text| < ChunkSize then |text| else ChunkSize;
    var c := Chunks(text);
    var d := Chunks(text[n..]);
    assert |c| == |d| + 1;
    assert c[0] == text[..n];
    forall k | 0 <= k < |d|
      ensures c[k + 1] == d[k]
    {
      ChunkShift(text, k);
    }
    assert c == [c[0]] + d;
  }

  /** The chunk after the first k of a text is chunk k of what follows the first chunk. */
  lemma ChunkShift(text: string, k: nat)
    requires text != []
    requires k + 1 < |Chunks(text)|
    ensures var n := if |text| < ChunkSize then |text| else ChunkSize;
            k < |Chunks(text[n..])| && Chunks(text)[k + 1] == Chunks(text[n..])[k]
  {
    var rest := text[ChunkSize..];
    ChunkCountStep(|text|);
    var lo := k * ChunkSize;
    assert (k + 1) * ChunkSize == lo + ChunkSize;
    assert Chunks(text)[k + 1] == Slice(text, lo + ChunkSize, lo + ChunkSize + ChunkSize);
    assert Chunks(rest)[k] == Slice(rest, lo, lo + ChunkSize);
    SliceShift(text, ChunkSize, lo, lo + ChunkSize);
  }

  /** A text longer than one chunk has one chunk more than what follows its first chunk. */
  lemma ChunkCountStep(len: nat)
    requires len > ChunkSize
    ensures (len + ChunkSize - 1) / ChunkSize == (len - ChunkSize + ChunkSize - 1) / ChunkSize + 1
  {
  }

  /** Slicing what follows the first n characters is slicing the whole text n further on. */
  lemma SliceShift(s: string, n: nat, i: nat, j: nat)
    requires n <= |s|
    ensures Slice(s[n..], i, j) == Slice(s, i + n, j + n)
  {
    var t := s[n..];
    var lo := if i < |t| then i else |t|;
    var hi := if j < |t| then j else |t|;
    if lo <= hi {
      assert t[lo..hi] == s[lo + n..hi + n] by {
        forall m | lo + n <= m < hi + n ensures t[m - n] == s[m] { }
      }
    }
  }

  /** The chunks put back together give exactly the text; an empty text has no chunks. */
  lemma {:induction false} ChunksJoin(text: string)
    ensures Join(Chunks(text)) == text
    ensures text == [] <==> Chunks(text) == []
    decreases |text|
  {
    if text != [] {
      var n := if |text| < ChunkSize then |text| else ChunkSize;
      ChunksStep(text);
      ChunksJoin(text[n..]);
      assert ([text[..n]] + Chunks(text[n..]))[1..] == Chunks(text[n..]);
      assert text[..n] + text[n..] == text;
    }
  }

  // ----------------------------------------------------------- ingestion

  /** What reading the PDF gives: the text of each page, or a failure. */
  datatype PdfRead = ReadFailed | Pages(texts: seq<string>)

  /** The extracted text: every page's text followed by a newline. */
  function PagesText(pages: seq<string>): string
    decreases |pages|
  {
    if pages == [] then [] else PagesText(pages[..|pages| - 1]) + pages[|pages| - 1] + "\n"
  }

  /** Each page's text followed by a newline. */
  function Lines(pages: seq<string>): seq<string>
  {
    seq(|pages|, i requires 0 <= i < |pages| => pages[i] + "\n")
  }

  /** The extracted text is the pages' texts in page order, each followed by one newline, and nothing else. */
  lemma {:induction false} PagesTextJoinsLines(pages: seq<string>)
    ensures PagesText(pages) == Join(Lines(pages))
    decreases |pages|
  {
    if pages != [] {
      var init := pages[..|pages| - 1];
      var last := pages[|pages| - 1];
      PagesTextJoinsLines(init);
      assert Lines(pages) == Lines(init) + [last + "\n"];
      JoinSnoc(Lines(init), last + "\n");
      assert PagesText(init) + last + "\n" == PagesText(init) + (last + "\n");
    }
  }

  /** Every page contributes its text and one newline, so the extracted text is as long as the pages together plus one character per page. */
  lemma {:induction false} PagesTextLength(pages: seq<string>)
    ensures |PagesText(pages)| == |Join(pages)| + |pages|
    decreases |pages|
  {
    if pages != [] {
      PagesTextLength(pages[..|pages| - 1]);
      JoinSnoc(pages[..|pages| - 1], pages[|pages| - 1]);
      assert pages[..|pages| - 1] + [pages[|pages| - 1]] == pages;
    }
  }

  lemma {:induction false} JoinSnoc(chunks: seq<string>, last: string)
    ensures Join(chunks + [last]) == Join(chunks) + last
    decreases |chunks|
  {
    if chunks == [] {
      assert [] + [last] == [last];
      assert [last][1..] == [];
    } else {
      assert (chunks + [last])[1..] == chunks[1..] + [last];
      JoinSnoc(chunks[1..], last);
    }
  }

  /**
   * `ingest_user_rule_file`: a path not ending in ".pdf" is refused before
   * anything is read; otherwise the pages' text is gathered page by page,
   * cut into chunks, and handed to the store. A failed read, or a store that
   * rejects the chunks (`stored` false), gives false. `handed` is what was
   * handed to the store.
   */
  method IngestUserRuleFile(filePath: string, pdf: PdfRead, stored: bool) returns (ok: bool, handed: seq<string>)
    ensures !EndsWith(filePath, ".pdf") ==> !ok && handed == []
    ensures EndsWith(filePath, ".pdf") && pdf.Pages? ==> handed == Chunks(PagesText(pdf.texts)) && ok == stored
    ensures pdf.ReadFailed? ==> !ok && handed == []
  {
    if !EndsWith(filePath, ".pdf") {
      return false, [];
    }
    if pdf.ReadFailed? {
      return false, [];
    }
    var text := "";
    var i := 0;
    while i < |pdf.texts|
      invariant 0 <= i <= |pdf.texts|
      invariant text == PagesText(pdf.texts[..i])
    {
      text := text + pdf.texts[i] + "\n";
      assert pdf.texts[..i + 1][..i] == pdf.texts[..i];
      i := i + 1;
    }
    assert pdf.texts[..i] == pdf.texts;
    handed := Chunks(text);
    ok := stored;
  }

  /** What is handed to the store is the whole extracted text, nothing lost or added, in chunks of at most 1000 characters. */
  lemma IngestedTextIsWhole(pages: seq<string>, k: nat)
    requires k < |Chunks(PagesText(pages))|
    ensures Join(Chunks(PagesText(pages))) == PagesText(pages)
    ensures 0 < |Chunks(PagesText(pages))[k]| <= ChunkSize
  {
    ChunksJoin(PagesText(pages));
    ChunkSizes(PagesText(pages), k);
  }
}
