/**
 * The Python string built-ins the core relies on, written out: `str.isspace`,
 * `str.strip`, `int(str)`, `"%i" % n`, `str.split()`, `str.split(sep)`,
 * `sep.join(items)`, `os.path.dirname`, `s.split(marker)[-1]` and the ordering
 * `sorted` uses on strings.
 */
module PyText {
  import opened Common

  // ---------------------------------------------------------------------------
  // Characters

  /** Python's `str.isspace()`: the ASCII and Unicode white-space characters. */
  predicate IsSpace(c: char) {
    c == ' ' || ('\t' <= c <= '\r') || ('\U{1C}' <= c <= '\U{1F}')
    || c == '\U{85}' || c == '\U{A0}' || c == '\U{1680}' || ('\U{2000}' <= c <= '\U{200A}')
    || c == '\U{2028}' || c == '\U{2029}' || c == '\U{202F}' || c == '\U{205F}' || c == '\U{3000}'
  }

  /**
   * The white space `int()` strips from its argument: that of `str.isspace()`
   * except the four separators U+001C..U+001F, which `int()` keeps and then
   * rejects as it would any other non-digit.
   */
  predicate IsIntSpace(c: char) {
    IsSpace(c) && !('\U{1C}' <= c <= '\U{1F}')
  }

  predicate IsDigit(c: char) {
    '0' <= c <= '9'
  }

  function DigitValue(c: char): (d: nat)
    requires IsDigit(c)
    ensures d < 10
  {
    (c as int) - ('0' as int)
  }

  function DigitChar(d: nat): (c: char)
    requires d < 10
    ensures IsDigit(c) && DigitValue(c) == d
  {
    ('0' as int + d) as char
  }

  // ---------------------------------------------------------------------------
  // int(str) and "%i" % n
  //
  // `int(s)` strips `s` and reads what is left. The text is addressed by
  // indices into `s` rather than by slices: `s[lo..hi]` is the part read.

  /** The first index at or after `i` whose character is not white space to `int()` (`|s|` if none). */
  function SkipSpace(s: string, i: nat): (j: nat)
    requires i <= |s|
    ensures i <= j <= |s|
    decreases |s| - i
  {
    if i < |s| && IsIntSpace(s[i]) then SkipSpace(s, i + 1) else i
  }

  /** The end of `s[lo..j]` once the trailing white space `int()` strips is dropped. */
  function TrimSpace(s: string, lo: nat, j: nat): (k: nat)
    requires lo <= j <= |s|
    ensures lo <= k <= j
    decreases j
  {
    if j > lo && IsIntSpace(s[j - 1]) then TrimSpace(s, lo, j - 1) else j
  }

  /**
   * `s[lo..hi]` is a digit group `int()` accepts in base 10: decimal digits,
   * where a single underscore may separate two digits (PEP 515). Read from
   * the right: a last digit, preceded by nothing, by a group, or by an
   * underscore and a group.
   */
  predicate IsDigitGroup(s: string, lo: nat, hi: nat)
    requires lo <= hi <= |s|
    decreases hi - lo
  {
    && hi > lo
    && IsDigit(s[hi - 1])
    && (hi - lo == 1 || if s[hi - 2] == '_' then IsDigitGroup(s, lo, hi - 2) else IsDigitGroup(s, lo, hi - 1))
  }

  /** The number written by the digit group `s[lo..hi]`, underscores ignored. */
  function DigitsValue(s: string, lo: nat, hi: nat): nat
    requires lo <= hi <= |s| && IsDigitGroup(s, lo, hi)
    decreases hi - lo
  {
    var d := DigitValue(s[hi - 1]);
    if hi - lo == 1 then d
    else if s[hi - 2] == '_' then DigitsValue(s, lo, hi - 2) * 10 + d
    else DigitsValue(s, lo, hi - 1) * 10 + d
  }

  /**
   * `int(s)`: surrounding white space (`IsIntSpace`) is ignored, then an
   * optional sign and a digit group; anything else raises ValueError (here: None).
   */
  function ParseInt(s: string): Option<int> {
    var lo := SkipSpace(s, 0);
    var hi := TrimSpace(s, lo, |s|);
    if lo < hi && (s[lo] == '-' || s[lo] == '+') then
      if IsDigitGroup(s, lo + 1, hi) then
        var v: int := DigitsValue(s, lo + 1, hi);
        Some(if s[lo] == '-' then -v else v)
      else None
    else if IsDigitGroup(s, lo, hi) then Some(DigitsValue(s, lo, hi))
    else None
  }

  /** A digit group begins with a digit. */
  lemma {:induction false} DigitGroupStartsWithDigit(s: string, lo: nat, hi: nat)
    requires lo <= hi <= |s| && IsDigitGroup(s, lo, hi)
    ensures IsDigit(s[lo])
    decreases hi - lo
  {
    if hi - lo > 1 {
      if s[hi - 2] == '_' {
        DigitGroupStartsWithDigit(s, lo, hi - 2);
      } else {
        DigitGroupStartsWithDigit(s, lo, hi - 1);
      }
    }
  }

  /**
   * `int()` does not strip the separators U+001C..U+001F although
   * `str.isspace()` holds for them: a text that starts with one is not a number.
   */
  lemma ParseIntRejectsLeadingSeparator(s: string)
    requires |s| > 0 && '\U{1C}' <= s[0] <= '\U{1F}'
    ensures ParseInt(s) == None
  {
    assert SkipSpace(s, 0) == 0;
    var hi := TrimSpace(s, 0, |s|);
    if IsDigitGroup(s, 0, hi) {
      DigitGroupStartsWithDigit(s, 0, hi);
    }
  }

  /** The decimal digits of `n`, without leading zeros. */
  function FormatNat(n: nat): (r: string)
    ensures |r| > 0 && forall i :: 0 <= i < |r| ==> IsDigit(r[i])
  {
    if n < 10 then [DigitChar(n)] else FormatNat(n / 10) + [DigitChar(n % 10)]
  }

  /** `"%i" % n`. */
  function FormatInt(n: int): string {
    if n < 0 then "-" + FormatNat(-n) else FormatNat(n)
  }

  /** "%i" writes a digit group that `int()` reads back as the number, wherever it stands in a text. */
  lemma {:induction false} FormatNatDigits(n: nat, s: string, lo: nat)
    requires lo + |FormatNat(n)| <= |s| && s[lo..lo + |FormatNat(n)|] == FormatNat(n)
    ensures IsDigitGroup(s, lo, lo + |FormatNat(n)|) && DigitsValue(s, lo, lo + |FormatNat(n)|) == n
  {
    var r := FormatNat(n);
    var hi := lo + |r|;
    assert s[hi - 1] == s[lo..hi][|r| - 1];
    if n >= 10 {
      var q := FormatNat(n / 10);
      assert r == q + [DigitChar(n % 10)];
      assert s[lo..lo + |q|] == s[lo..hi][..|q|];
      FormatNatDigits(n / 10, s, lo);
      assert s[hi - 2] == s[lo..hi][|q| - 1];
    }
  }

  /** `int("%i\n" % n) == n`: a number written with "%i" and a newline reads back as itself. */
  lemma FormatIntLineRoundTrip(n: int)
    ensures ParseInt(FormatInt(n) + "\n") == Some(n)
  {
    var f := FormatInt(n);
    var s := f + "\n";
    var m: nat := if n < 0 then -n else n;
    var digits := FormatNat(m);
    var start := if n < 0 then 1 else 0;
    assert s[start..start + |digits|] == digits;
    FormatNatDigits(m, s, start);
    assert IsDigit(s[start]) && IsDigit(s[|f| - 1]) by {
      assert s[start] == digits[0] && s[|f| - 1] == digits[|digits| - 1];
    }
    assert SkipSpace(s, 0) == 0;
    assert TrimSpace(s, 0, |s|) == TrimSpace(s, 0, |f|) == |f|;
  }

  // ---------------------------------------------------------------------------
  // str.split(), str.split(sep), sep.join(items)

  /** The longest prefix of `s` holding no white space. */
  function Word(s: string): (r: string)
    ensures |r| <= |s|
    ensures s != [] && !IsSpace(s[0]) ==> |r| > 0
  {
    if s == [] || IsSpace(s[0]) then [] else [s[0]] + Word(s[1..])
  }

  /** `s.split()`: the maximal runs of non-white-space characters of `s`. */
  function Fields(s: string): seq<string>
    decreases |s|
  {
    if s == [] then []
    else if IsSpace(s[0]) then Fields(s[1..])
    else var w := Word(s); [w] + Fields(s[|w|..])
  }

  /** A word is a prefix of `s` without white space. */
  lemma {:induction false} WordIsPrefix(s: string)
    ensures Word(s) == s[..|Word(s)|]
    ensures forall i :: 0 <= i < |Word(s)| ==> !IsSpace(Word(s)[i])
  {
    if s != [] && !IsSpace(s[0]) {
      WordIsPrefix(s[1..]);
    }
  }

  /** Every field `split()` returns is a non-empty word without white space. */
  lemma {:induction false} FieldsAreWords(s: string)
    ensures forall i :: 0 <= i < |Fields(s)| ==>
      |Fields(s)[i]| > 0 && forall j :: 0 <= j < |Fields(s)[i]| ==> !IsSpace(Fields(s)[i][j])
    decreases |s|
  {
    if s == [] {
    } else if IsSpace(s[0]) {
      FieldsAreWords(s[1..]);
    } else {
      WordIsPrefix(s);
      FieldsAreWords(s[|Word(s)|..]);
    }
  }

  /** `s.split(sep)` for a one-character separator: never empty. */
  function SplitOn(s: string, sep: char): (r: seq<string>)
    ensures |r| >= 1
  {
    if s == [] then [""]
    else if s[0] == sep then [""] + SplitOn(s[1..], sep)
    else var rest := SplitOn(s[1..], sep); [[s[0]] + rest[0]] + rest[1..]
  }

  /** `sep.join(items)`. */
  function Join(items: seq<string>, sep: string): string {
    if |items| == 0 then ""
    else if |items| == 1 then items[0]
    else items[0] + sep + Join(items[1..], sep)
  }

  // ---------------------------------------------------------------------------
  // s.split(marker)[-1]

  predicate IsPrefix(p: string, s: string) {
    |p| <= |s| && s[..|p|] == p
  }

  predicate IsSuffix(p: string, s: string) {
    |p| <= |s| && s[|s| - |p|..] == p
  }

  /** `marker in s`. */
  predicate Contains(s: string, marker: string) {
    IsPrefix(marker, s) || (s != [] && Contains(s[1..], marker))
  }

  /**
   * `s.split(marker)[-1]`: the text after the last occurrence of `marker`
   * (all of `s` when `marker` does not occur in it).
   */
  function AfterLast(s: string, marker: string): string
    requires |marker| > 0
    decreases |s|
  {
    if IsPrefix(marker, s) then AfterLast(s[|marker|..], marker)
    else if s == [] then s
    else if Contains(s[1..], marker) then AfterLast(s[1..], marker)
    else s
  }

  lemma {:induction false} AfterLastSuffix(s: string, marker: string)
    requires |marker| > 0
    ensures IsSuffix(AfterLast(s, marker), s) && !Contains(AfterLast(s, marker), marker)
    decreases |s|
  {
    var r := AfterLast(s, marker);
    if IsPrefix(marker, s) {
      var rest := s[|marker|..];
      AfterLastSuffix(rest, marker);
      assert s[|s| - |r|..] == rest[|rest| - |r|..];
    } else if s != [] && Contains(s[1..], marker) {
      var rest := s[1..];
      AfterLastSuffix(rest, marker);
      assert s[|s| - |r|..] == rest[|rest| - |r|..];
    }
  }

  /** A suffix of a text stays a suffix when the text is extended at the front. */
  lemma SuffixExtends(front: string, t: string, p: string)
    requires IsSuffix(p, t)
    ensures IsSuffix(p, front + t)
  {
    assert (front + t)[|front + t| - |p|..] == t[|t| - |p|..];
  }

  lemma {:induction false} AfterLastPreceded(s: string, marker: string)
    requires |marker| > 0
    ensures |AfterLast(s, marker)| <= |s|
    ensures var r := AfterLast(s, marker); r == s || IsSuffix(marker, s[..|s| - |r|])
    decreases |s|
  {
    var r := AfterLast(s, marker);
    if IsPrefix(marker, s) {
      var rest := s[|marker|..];
      AfterLastPreceded(rest, marker);
      if r == rest {
        assert s[..|s| - |r|] == marker;
      } else {
        var before := rest[..|rest| - |r|];
        assert s[..|s| - |r|] == marker + before;
        SuffixExtends(marker, before, marker);
      }
    } else if s != [] && Contains(s[1..], marker) {
      var rest := s[1..];
      AfterLastPreceded(rest, marker);
      AfterLastSuffix(rest, marker);
      assert r != rest;
      var before := rest[..|rest| - |r|];
      assert s[..|s| - |r|] == [s[0]] + before;
      SuffixExtends([s[0]], before, marker);
    }
  }

  /**
   * What `split(marker)[-1]` returns, independently of how it is computed: a
   * suffix of `s` in which `marker` does not occur, and which is either all of
   * `s` or preceded by `marker`; when `marker` does not occur, all of `s`.
   */
  lemma AfterLastIsLastPiece(s: string, marker: string)
    requires |marker| > 0
    ensures var r := AfterLast(s, marker);
      && IsSuffix(r, s)
      && !Contains(r, marker)
      && (r == s || IsSuffix(marker, s[..|s| - |r|]))
      && (!Contains(s, marker) ==> r == s)
  {
    AfterLastSuffix(s, marker);
    AfterLastPreceded(s, marker);
  }

  // ---------------------------------------------------------------------------
  // os.path.dirname

  /** `p[:p.rfind('/') + 1]`: `p` up to and including its last slash. */
  function UpToLastSlash(p: string): (r: string)
    ensures |r| <= |p| && r == p[..|r|]
    ensures r == [] || r[|r| - 1] == '/'
    ensures r == [] <==> '/' !in p
  {
    if p == [] then []
    else if p[|p| - 1] == '/' then p
    else
      assert p == p[..|p| - 1] + [p[|p| - 1]];
      UpToLastSlash(p[..|p| - 1])
  }

  function RStripSlashes(h: string): string {
    if h != [] && h[|h| - 1] == '/' then RStripSlashes(h[..|h| - 1]) else h
  }

  predicate AllSlashes(h: string) {
    forall i :: 0 <= i < |h| ==> h[i] == '/'
  }

  /** `os.path.dirname(p)` on POSIX. */
  function DirName(p: string): string {
    var head := UpToLastSlash(p);
    if head != [] && !AllSlashes(head) then RStripSlashes(head) else head
  }

  lemma {:induction false} RStripKeepsNonSlash(h: string, i: nat)
    requires i < |h| && h[i] != '/'
    ensures |RStripSlashes(h)| > i
    decreases |h|
  {
    if h != [] && h[|h| - 1] == '/' {
      RStripKeepsNonSlash(h[..|h| - 1], i);
    }
  }

  /** The directory part is empty exactly when the path holds no slash. */
  lemma DirNameEmpty(p: string)
    ensures DirName(p) == "" <==> '/' !in p
  {
    var head := UpToLastSlash(p);
    if head != [] && !AllSlashes(head) {
      var i :| 0 <= i < |head| && head[i] != '/';
      RStripKeepsNonSlash(head, i);
    }
  }

  // ---------------------------------------------------------------------------
  // String ordering

  /** Python's `a < b` on strings: lexicographic by code point, a proper prefix first. */
  predicate StrLess(a: string, b: string) {
    if |a| == 0 then |b| > 0
    else if |b| == 0 then false
    else if a[0] != b[0] then a[0] < b[0]
    else StrLess(a[1..], b[1..])
  }

  lemma {:induction false} StrLessIrreflexive(a: string)
    ensures !StrLess(a, a)
  {
    if |a| > 0 {
      StrLessIrreflexive(a[1..]);
    }
  }

  lemma {:induction false} StrLessTransitive(a: string, b: string, c: string)
    requires StrLess(a, b) && StrLess(b, c)
    ensures StrLess(a, c)
  {
    if |a| > 0 && a[0] == b[0] && b[0] == c[0] {
      StrLessTransitive(a[1..], b[1..], c[1..]);
    }
  }

  lemma {:induction false} StrLessTotal(a: string, b: string)
    requires a != b
    ensures StrLess(a, b) || StrLess(b, a)
  {
    if |a| > 0 && |b| > 0 && a[0] == b[0] {
      assert a == [a[0]] + a[1..] && b == [b[0]] + b[1..];
      StrLessTotal(a[1..], b[1..]);
    }
  }
}
