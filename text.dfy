/** String helpers shared by the backend (Python `str.strip`, `str.upper`, `in`,
    `" ".join`) and the frontend (JavaScript `String.prototype.trim`).
    The two languages disagree on what whitespace is, so trimming takes the
    language as a parameter; case is ASCII only here. */
module Text {

  /** Whose notion of whitespace a trim uses. */
  datatype Lang = Python | JavaScript

  /** Whitespace both languages strip: tab, line feed, vertical tab, form
      feed, carriage return, space, no-break space, the Unicode space
      separators and the line and paragraph separators. */
  predicate IsCommonSpace(c: char) {
    var n := c as int;
    || (9 <= n <= 13) || n == 0x20 || n == 0xA0 || n == 0x1680
    || (0x2000 <= n <= 0x200A) || n == 0x2028 || n == 0x2029
    || n == 0x202F || n == 0x205F || n == 0x3000
  }

  /** Python's `str.isspace` also counts the information separators
      U+001C..U+001F and U+0085 (next line); JavaScript's `trim` instead
      also removes U+FEFF (the byte order mark). */
  predicate IsSpace(lang: Lang, c: char) {
    || IsCommonSpace(c)
    || (lang == Python && (0x1C <= c as int <= 0x1F || c as int == 0x85))
    || (lang == JavaScript && c as int == 0xFEFF)
  }

  predicate AllSpace(lang: Lang, s: string) {
    forall i :: 0 <= i < |s| ==> IsSpace(lang, s[i])
  }

  /** Drops leading whitespace. */
  function TrimStart(lang: Lang, s: string): string {
    if |s| > 0 && IsSpace(lang, s[0]) then TrimStart(lang, s[1..]) else s
  }

  /** What `TrimStart` leaves is a suffix of `s`, after only whitespace, and
      does not start with whitespace. */
  lemma {:induction false} TrimStartSpec(lang: Lang, s: string)
    ensures var r := TrimStart(lang, s);
      && |r| <= |s| && r == s[|s| - |r|..] && AllSpace(lang, s[..|s| - |r|])
      && (r == [] || !IsSpace(lang, r[0]))
  {
    if |s| > 0 && IsSpace(lang, s[0]) {
      TrimStartSpec(lang, s[1..]);
      var r := TrimStart(lang, s[1..]);
      assert s[1..][..|s[1..]| - |r|] == s[1..|s| - |r|];
    }
  }

  /** Drops trailing whitespace. */
  function TrimEnd(lang: Lang, s: string): string {
    if |s| > 0 && IsSpace(lang, s[|s| - 1]) then TrimEnd(lang, s[..|s| - 1]) else s
  }

  /** What `TrimEnd` leaves is a prefix of `s`, before only whitespace, and
      does not end with whitespace. */
  lemma {:induction false} TrimEndSpec(lang: Lang, s: string)
    ensures var r := TrimEnd(lang, s);
      && |r| <= |s| && r == s[..|r|] && AllSpace(lang, s[|r|..])
      && (r == [] || !IsSpace(lang, r[|r| - 1]))
  {
    if |s| > 0 && IsSpace(lang, s[|s| - 1]) {
      TrimEndSpec(lang, s[..|s| - 1]);
      var r := TrimEnd(lang, s[..|s| - 1]);
      assert s[..|s| - 1][|r|..] == s[|r|..|s| - 1];
      assert s[|r|..] == s[|r|..|s| - 1] + [s[|s| - 1]];
    }
  }

  /** Python `s.strip()` and JavaScript `s.trim()`. */
  function Strip(lang: Lang, s: string): string {
    TrimEnd(lang, TrimStart(lang, s))
  }

  /** The strip of `s` is the slice of `s` left between whitespace at both
      ends, and neither starts nor ends with whitespace. */
  lemma StripSpec(lang: Lang, s: string)
    ensures var r := Strip(lang, s);
      && |r| <= |s|
      && (r == [] || (!IsSpace(lang, r[0]) && !IsSpace(lang, r[|r| - 1])))
      && exists i, j :: 0 <= i <= j <= |s| && r == s[i..j] && AllSpace(lang, s[..i]) && AllSpace(lang, s[j..])
  {
    var a := TrimStart(lang, s);
    var r := TrimEnd(lang, a);
    TrimStartSpec(lang, s);
    TrimEndSpec(lang, a);
    var i := |s| - |a|;
    var j := i + |r|;
    assert a == s[i..];
    assert r == s[i..j] by {
      assert r == a[..|r|];
    }
    assert AllSpace(lang, s[j..]) by {
      assert a[|r|..] == s[j..];
    }
  }

  /** A string is blank when nothing is left after stripping it. */
  predicate IsBlank(lang: Lang, s: string) {
    Strip(lang, s) == []
  }

  /** The empty string is its own strip. */
  lemma StripEmpty(lang: Lang)
    ensures Strip(lang, "") == ""
  {
  }

  /** A string is blank exactly when every character of it is whitespace. */
  lemma BlankIffAllSpace(lang: Lang, s: string)
    ensures IsBlank(lang, s) <==> AllSpace(lang, s)
  {
    var r := Strip(lang, s);
    StripSpec(lang, s);
    var i, j :| 0 <= i <= j <= |s| && r == s[i..j] && AllSpace(lang, s[..i]) && AllSpace(lang, s[j..]);
    if r == [] {
      forall k | 0 <= k < |s| ensures IsSpace(lang, s[k]) {
        if k < i { assert s[..i][k] == s[k]; } else { assert s[j..][k - j] == s[k]; }
      }
    }
  }

  /** The two notions differ: an information separator is stripped by
      Python and kept by JavaScript, a byte order mark the other way round. */
  lemma StripLanguagesDiffer()
    ensures Strip(Python, [0x1C as char]) == [] && Strip(JavaScript, [0x1C as char]) == [0x1C as char]
    ensures Strip(JavaScript, [0xFEFF as char]) == [] && Strip(Python, [0xFEFF as char]) == [0xFEFF as char]
  {
    var sep, bom := [0x1C as char], [0xFEFF as char];
    assert sep[1..] == [] && bom[1..] == [];
    assert TrimStart(Python, sep) == [] && TrimStart(JavaScript, bom) == [];
    assert TrimStart(JavaScript, sep) == sep && TrimEnd(JavaScript, sep) == sep;
    assert TrimStart(Python, bom) == bom && TrimEnd(Python, bom) == bom;
  }

  /** Python `str.upper()` restricted to ASCII: `a`..`z` become `A`..`Z`. */
  function UpperChar(c: char): (r: char)
    ensures 'a' <= c <= 'z' ==> 'A' <= r <= 'Z'
    ensures !('a' <= c <= 'z') ==> r == c
  {
    if 'a' <= c <= 'z' then (c as int - 32) as char else c
  }

  function Upper(s: string): (r: string)
    ensures |r| == |s|
    ensures forall i :: 0 <= i < |s| ==> r[i] == UpperChar(s[i])
    ensures forall i :: 0 <= i < |r| ==> !('a' <= r[i] <= 'z')
  {
    seq(|s|, i requires 0 <= i < |s| => UpperChar(s[i]))
  }

  /** `k` occurs in `s` starting at position `i`. */
  predicate OccursAt(s: string, k: string, i: int) {
    0 <= i && i + |k| <= |s| && s[i..i + |k|] == k
  }

  /** Python's substring test `k in s`. */
  predicate Contains(s: string, k: string) {
    exists i | 0 <= i <= |s| :: OccursAt(s, k, i)
  }

  /** Python `" ".join(parts)`. */
  function JoinWithSpace(parts: seq<string>): (r: string)
    ensures parts == [] ==> r == []
    ensures |parts| == 1 ==> r == parts[0]
  {
    if parts == [] then []
    else if |parts| == 1 then parts[0]
    else parts[0] + " " + JoinWithSpace(parts[1..])
  }
}
