/**
 * The Python `str` operations the core relies on: `strip()`, `upper()`,
 * `lstrip(c)`, `startswith`, `endswith` and clamped slicing `s[i:j]`.
 */
module PyStr {

  /** `str.isspace()` for one character: the 29 code points Python treats as whitespace. */
  predicate IsSpace(c: char)
  {
    || c == ' '
    || ('\t' <= c <= '\r')
    || ('\U{1C}' <= c <= '\U{1F}')
    || c == '\U{85}' || c == '\U{A0}' || c == '\U{1680}'
    || ('\U{2000}' <= c <= '\U{200A}')
    || c == '\U{2028}' || c == '\U{2029}' || c == '\U{202F}' || c == '\U{205F}' || c == '\U{3000}'
  }

  predicate AllSpace(s: string)
  {
    forall i :: 0 <= i < |s| ==> IsSpace(s[i])
  }

  /** Leading whitespace removed: what is dropped is all whitespace, and what is kept starts with a non-space. */
  function LStripSpace(s: string): (r: string)
    ensures |r| <= |s| && r == s[|s| - |r|..]
    ensures r == [] || !IsSpace(r[0])
    ensures forall i :: 0 <= i < |s| - |r| ==> IsSpace(s[i])
  {
    if |s| > 0 && IsSpace(s[0]) then LStripSpace(s[1..]) else s
  }

  /** Trailing whitespace removed, symmetrically. */
  function RStripSpace(s: string): (r: string)
    ensures |r| <= |s| && r == s[..|r|]
    ensures r == [] || !IsSpace(r[|r| - 1])
    ensures forall i :: |r| <= i < |s| ==> IsSpace(s[i])
  {
    if |s| > 0 && IsSpace(s[|s| - 1]) then RStripSpace(s[..|s| - 1]) else s
  }

  /** How many whitespace characters `s` starts with. */
  function LeadingSpace(s: string): (n: nat)
    ensures n <= |s| && AllSpace(s[..n])
    ensures n == |s| || !IsSpace(s[n])
  {
    var l := LStripSpace(s);
    assert s[|s| - |l|..] == l;
    |s| - |l|
  }

  /** `s.strip()`. */
  function Strip(s: string): (r: string)
    ensures |r| <= |s|
    ensures r == [] || (!IsSpace(r[0]) && !IsSpace(r[|r| - 1]))
  {
    RStripSpace(LStripSpace(s))
  }

  /**
   * What `strip()` computes: the stretch of `s` that starts after its leading
   * whitespace and has only whitespace after it; so it is empty exactly when
   * `s` is all whitespace.
   */
  lemma StripIsStretch(s: string)
    ensures LeadingSpace(s) + |Strip(s)| <= |s|
    ensures Strip(s) == s[LeadingSpace(s)..LeadingSpace(s) + |Strip(s)|]
    ensures AllSpace(s[LeadingSpace(s) + |Strip(s)|..])
    ensures AllSpace(s) <==> Strip(s) == []
  {
    var l := LStripSpace(s);
    var r := RStripSpace(l);
    assert Strip(s) == r;
    assert LeadingSpace(s) == |s| - |l|;
    StripStretch(s, l, r);
  }

  /** Cutting leading and then trailing whitespace keeps a stretch of `s` with only whitespace around it. */
  lemma StripStretch(s: string, l: string, r: string)
    requires |l| <= |s| && l == s[|s| - |l|..] && (l == [] || !IsSpace(l[0]))
    requires forall i :: 0 <= i < |s| - |l| ==> IsSpace(s[i])
    requires |r| <= |l| && r == l[..|r|]
    requires forall i :: |r| <= i < |l| ==> IsSpace(l[i])
    ensures |s| - |l| + |r| <= |s|
    ensures r == s[|s| - |l|..|s| - |l| + |r|]
    ensures AllSpace(s[|s| - |l| + |r|..])
    ensures AllSpace(s) <==> r == []
  {
    var k := |s| - |l|;
    assert s[k..] == l;
    assert s[k + |r|..] == l[|r|..];
    assert AllSpace(l[|r|..]) by {
      forall i | 0 <= i < |l| - |r| ensures IsSpace(l[|r|..][i]) {
        assert l[|r|..][i] == l[|r| + i];
      }
    }
    if r == [] {
      assert l == [];
    }
  }

  /** Stripping a string that is padded only with whitespace, and that neither starts nor ends with whitespace itself, gives that string back. */
  lemma StripPadded(front: string, x: string, back: string)
    requires AllSpace(front) && AllSpace(back)
    requires x != [] && !IsSpace(x[0]) && !IsSpace(x[|x| - 1])
    ensures Strip(front + x + back) == x
  {
    assert front + x + back == front + (x + back);
    assert (x + back)[0] == x[0];
    LStripPadded(front, x + back);
    RStripPadded(x, back);
  }

  /** Leading whitespace in front of a string that starts with a non-space is exactly what `LStripSpace` removes. */
  lemma {:induction false} LStripPadded(front: string, y: string)
    requires AllSpace(front)
    requires y != [] && !IsSpace(y[0])
    ensures LStripSpace(front + y) == y
  {
    if front == [] {
      assert front + y == y;
    } else {
      assert (front + y)[0] == front[0];
      assert (front + y)[1..] == front[1..] + y;
      LStripPadded(front[1..], y);
    }
  }

  /** Trailing whitespace after a string that ends with a non-space is exactly what `RStripSpace` removes. */
  lemma {:induction false} RStripPadded(y: string, back: string)
    requires AllSpace(back)
    requires y != [] && !IsSpace(y[|y| - 1])
    ensures RStripSpace(y + back) == y
  {
    if back == [] {
      assert y + back == y;
    } else {
      var s := y + back;
      var init := back[..|back| - 1];
      assert s[|s| - 1] == back[|back| - 1];
      assert s[..|s| - 1] == y + init;
      assert AllSpace(init) by {
        forall i | 0 <= i < |init| ensures IsSpace(init[i]) {
          assert init[i] == back[i];
        }
      }
      RStripPadded(y, init);
    }
  }

  function UpperChar(c: char): char
  {
    if 'a' <= c <= 'z' then (c as int - 32) as char else c
  }

  /** `s.upper()`, over the ASCII letters. */
  function Upper(s: string): (r: string)
    ensures |r| == |s|
    ensures forall i :: 0 <= i < |s| ==> r[i] == UpperChar(s[i])
  {
    seq(|s|, i requires 0 <= i < |s| => UpperChar(s[i]))
  }

  predicate IsUpper(s: string)
  {
    forall i :: 0 <= i < |s| ==> !('a' <= s[i] <= 'z')
  }

  /** An upper-cased string holds no lower-case letter, and upper-casing it again changes nothing. */
  lemma UpperNormalizes(s: string)
    ensures IsUpper(Upper(s))
    ensures Upper(Upper(s)) == Upper(s)
  {
    assert forall i :: 0 <= i < |s| ==> UpperChar(UpperChar(s[i])) == UpperChar(s[i]);
  }

  /** Upper-casing leaves a string that has no lower-case letter unchanged. */
  lemma UpperOfUpper(s: string)
    requires IsUpper(s)
    ensures Upper(s) == s
  {
  }

  predicate StartsWith(s: string, prefix: string)
  {
    |prefix| <= |s| && s[..|prefix|] == prefix
  }

  predicate EndsWith(s: string, suffix: string)
  {
    |suffix| <= |s| && s[|s| - |suffix|..] == suffix
  }

  /** `s.lstrip(c)`: every leading copy of `c` removed. */
  function LStripChar(s: string, c: char): (r: string)
    ensures |r| <= |s| && r == s[|s| - |r|..]
    ensures r == [] || r[0] != c
    ensures forall i :: 0 <= i < |s| - |r| ==> s[i] == c
  {
    if |s| > 0 && s[0] == c then LStripChar(s[1..], c) else s
  }

  /** `s[i:j]` for non-negative bounds: Python clamps both bounds to the length. */
  function Slice(s: string, i: nat, j: nat): (r: string)
    ensures i <= j ==> |r| <= j - i
    ensures i <= j <= |s| ==> r == s[i..j]
    ensures j <= i ==> r == []
  {
    var lo := if i < |s| then i else |s|;
    var hi := if j < |s| then j else |s|;
    if lo <= hi then s[lo..hi] else []
  }
}
