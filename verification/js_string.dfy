/**
 * The JavaScript built-ins the core relies on: `String.prototype.toLowerCase`,
 * `String.prototype.includes`, `String.prototype.trim`, `Array.prototype.join`
 * and the decimal rendering of a non-negative integer `Number`. A `string` is
 * a sequence of Unicode code points where JavaScript uses UTF-16 code units;
 * the keywords and the white-space set are all in the Basic Multilingual
 * Plane, where the two coincide.
 */
module JsString {

  /** An ASCII capital letter. */
  predicate IsUpper(c: char) {
    'A' <= c <= 'Z'
  }

  /** KELVIN SIGN, whose lower case is the ASCII letter 'k'. */
  const KelvinSign: char := '\U{212A}'

  /**
   * The characters this model of `toLowerCase` maps: exactly those whose
   * JavaScript lower case is a single ASCII letter other than themselves.
   */
  predicate Lowers(c: char) {
    IsUpper(c) || c == KelvinSign
  }

  function LowerChar(c: char): (r: char)
    ensures !Lowers(r)
    ensures IsUpper(c) ==> r as int == c as int + 32
    ensures c == KelvinSign ==> r == 'k'
    ensures !Lowers(c) ==> r == c
  {
    if IsUpper(c) then (c as int + 32) as char
    else if c == KelvinSign then 'k'
    else c
  }

  /** `s.toLowerCase()`: maps every letter to lower case, position by position. */
  function ToLower(s: string): (r: string)
    ensures |r| == |s|
    ensures forall i :: 0 <= i < |s| ==> r[i] == LowerChar(s[i])
  {
    seq(|s|, i requires 0 <= i < |s| => LowerChar(s[i]))
  }

  /** Lower-casing twice is lower-casing once. */
  lemma ToLowerIdempotent(s: string)
    ensures ToLower(ToLower(s)) == ToLower(s)
  {
  }

  /** A string with no character that lower-cases is its own lower case. */
  lemma ToLowerNoUpper(s: string)
    requires forall i :: 0 <= i < |s| ==> !Lowers(s[i])
    ensures ToLower(s) == s
  {
  }

  lemma ToLowerAppend(a: string, b: string)
    ensures ToLower(a + b) == ToLower(a) + ToLower(b)
  {
    assert forall i :: 0 <= i < |a + b| ==> ToLower(a + b)[i] == (ToLower(a) + ToLower(b))[i];
  }

  lemma ToLowerAppend4(a: string, b: string, c: string, d: string)
    ensures ToLower(a + b + c + d) == ToLower(a) + ToLower(b) + ToLower(c) + ToLower(d)
  {
    ToLowerAppend(a, b);
    ToLowerAppend(a + b, c);
    ToLowerAppend(a + b + c, d);
  }

  predicate StartsWith(s: string, prefix: string) {
    |prefix| <= |s| && s[..|prefix|] == prefix
  }

  predicate EndsWith(s: string, suffix: string) {
    |suffix| <= |s| && s[|s| - |suffix|..] == suffix
  }

  /** `s.includes(w)`: whether `w` is found at some position of `s`, scanning left to right. */
  predicate Includes(s: string, w: string)
    ensures w == [] ==> Includes(s, w)
    ensures Includes(s, w) ==> |w| <= |s|
    decreases |s|
  {
    StartsWith(s, w) || (|s| > 0 && Includes(s[1..], w))
  }

  /** An occurrence of `w` in `s` at offset `i`. */
  predicate OccursAt(s: string, w: string, i: int) {
    0 <= i && i + |w| <= |s| && s[i..i + |w|] == w
  }

  /** The scan finds `w` exactly when `w` occurs at some offset of `s`. */
  lemma {:induction false} IncludesIff(s: string, w: string)
    ensures Includes(s, w) <==> exists i :: OccursAt(s, w, i)
  {
    if StartsWith(s, w) {
      assert OccursAt(s, w, 0);
    } else if |s| > 0 {
      IncludesIff(s[1..], w);
      var tail := s[1..];
      if exists i :: OccursAt(s, w, i) {
        var i :| OccursAt(s, w, i);
        assert i != 0;
        var window, found := tail[i - 1..i - 1 + |w|], s[i..i + |w|];
        forall m | 0 <= m < |w| ensures window[m] == found[m] {
          assert tail[i - 1 + m] == s[i + m];
        }
        assert window == found;
        assert OccursAt(tail, w, i - 1);
      }
      if exists j :: OccursAt(tail, w, j) {
        var j :| OccursAt(tail, w, j);
        var window, found := s[j + 1..j + 1 + |w|], tail[j..j + |w|];
        forall m | 0 <= m < |w| ensures window[m] == found[m] {
          assert tail[j + m] == s[j + 1 + m];
        }
        assert window == found;
        assert OccursAt(s, w, j + 1);
      }
    }
  }

  /** A word with a character the text lacks does not occur in it. */
  lemma NotIncludesMissingChar(s: string, w: string, c: char)
    requires c in w && c !in s
    ensures !Includes(s, w)
  {
    var k :| 0 <= k < |w| && w[k] == c;
    forall i ensures !OccursAt(s, w, i) {
      if 0 <= i && i + |w| <= |s| {
        assert s[i..i + |w|][k] == s[i + k];
        assert s[i + k] in s;
      }
    }
    IncludesIff(s, w);
  }

  /**
   * A word does not occur in `a + b` when its first character appears only
   * once, at the head of `b`, and is followed there by something else than
   * the word's second character.
   */
  lemma NotIncludesSingleLead(a: string, b: string, w: string)
    requires |w| >= 2 && |b| >= 2
    requires b[0] == w[0] && b[1] != w[1]
    requires w[0] !in a && w[0] !in b[1..]
    ensures !Includes(a + b, w)
  {
    var s := a + b;
    forall i ensures !OccursAt(s, w, i) {
      if 0 <= i && i + |w| <= |s| {
        var window := s[i..i + |w|];
        assert window[0] == s[i] && window[1] == s[i + 1];
        if i < |a| {
          assert s[i] == a[i] && a[i] in a;
        } else if i == |a| {
          assert s[i + 1] == b[1];
        } else {
          assert s[i] == b[1..][i - |a| - 1] && b[1..][i - |a| - 1] in b[1..];
        }
      }
    }
    IncludesIff(s, w);
  }

  /**
   * The characters `String.prototype.trim` removes: the ECMAScript WhiteSpace
   * code points (TAB, VT, FF, ZWNBSP and the Unicode space separators) and the
   * LineTerminator code points (LF, CR, LS, PS).
   */
  predicate IsWhitespace(c: char) {
    || c == '\t' || c == '\n' || c == '\U{000B}' || c == '\U{000C}' || c == '\r'
    || c == ' ' || c == '\U{00A0}' || c == '\U{1680}'
    || ('\U{2000}' <= c <= '\U{200A}')
    || c == '\U{2028}' || c == '\U{2029}' || c == '\U{202F}' || c == '\U{205F}'
    || c == '\U{3000}' || c == '\U{FEFF}'
  }

  /** Drops the leading whitespace: the result is the suffix starting at the first other character. */
  function TrimStart(s: string): (r: string)
    ensures |r| <= |s| && r == s[|s| - |r|..]
    ensures forall i :: 0 <= i < |s| - |r| ==> IsWhitespace(s[i])
    ensures r != [] ==> !IsWhitespace(r[0])
  {
    if s == [] || !IsWhitespace(s[0]) then s else TrimStart(s[1..])
  }

  /** Drops the trailing whitespace: the result is the prefix ending at the last other character. */
  function TrimEnd(s: string): (r: string)
    ensures |r| <= |s| && r == s[..|r|]
    ensures forall i :: |r| <= i < |s| ==> IsWhitespace(s[i])
    ensures r != [] ==> !IsWhitespace(r[|r| - 1])
  {
    if s == [] || !IsWhitespace(s[|s| - 1]) then s else TrimEnd(s[..|s| - 1])
  }

  /** `s.trim()`: neither end of the result is white space, and a string without white space is kept whole. */
  function Trim(s: string): (r: string)
    ensures |r| <= |s|
    ensures r != [] ==> !IsWhitespace(r[0]) && !IsWhitespace(r[|r| - 1])
    ensures (forall i :: 0 <= i < |s| ==> !IsWhitespace(s[i])) ==> r == s
  {
    TrimEnd(TrimStart(s))
  }

  /** `s.trim()` is truthy (non-empty) exactly when `s` has a character that is not whitespace. */
  lemma TrimNonEmptyIff(s: string)
    ensures Trim(s) != [] <==> exists i :: 0 <= i < |s| && !IsWhitespace(s[i])
  {
    var t := TrimStart(s);
    if t != [] {
      assert t[0] == s[|s| - |t|];
    }
  }

  /** `segments.join(sep)`: the segments in order with `sep` between neighbours; `""` for none. */
  function Join(segments: seq<string>, sep: string): (r: string)
    ensures segments != [] ==> StartsWith(r, segments[0]) && EndsWith(r, segments[|segments| - 1])
  {
    if |segments| == 0 then ""
    else if |segments| == 1 then segments[0]
    else Join(segments[..|segments| - 1], sep) + sep + segments[|segments| - 1]
  }

  /** Joining two segments puts exactly one separator between them. */
  lemma {:induction false} JoinPair(a: string, b: string, sep: string)
    ensures Join([a, b], sep) == a + sep + b
  {
    assert [a, b][..1] == [a];
  }

  /** Joining three segments. */
  lemma {:induction false} JoinTriple(a: string, b: string, c: string, sep: string)
    ensures Join([a, b, c], sep) == a + sep + b + sep + c
  {
    assert [a, b, c][..2] == [a, b];
    JoinPair(a, b, sep);
  }

  function DigitChar(d: nat): (r: char)
    requires d < 10
    ensures '0' <= r <= '9'
  {
    ('0' as int + d) as char
  }

  function DigitValue(c: char): (r: nat)
    requires '0' <= c <= '9'
    ensures r < 10 && DigitChar(r) == c
  {
    c as int - '0' as int
  }

  /** `String(n)` for a non-negative integer: its decimal digits, most significant first. */
  function NatToString(n: nat): (r: string)
    ensures |r| > 0
    ensures forall i :: 0 <= i < |r| ==> '0' <= r[i] <= '9'
  {
    if n < 10 then [DigitChar(n)] else NatToString(n / 10) + [DigitChar(n % 10)]
  }

  /** Reads a string of decimal digits back as a number. */
  function ParseNat(s: string): nat
    requires forall i :: 0 <= i < |s| ==> '0' <= s[i] <= '9'
  {
    if s == [] then 0 else 10 * ParseNat(s[..|s| - 1]) + DigitValue(s[|s| - 1])
  }

  /** The decimal rendering round-trips, so distinct numbers render as distinct strings. */
  lemma {:induction false} ParseNatToString(n: nat)
    ensures ParseNat(NatToString(n)) == n
  {
    var r := NatToString(n);
    if n < 10 {
      assert r[..0] == [];
    } else {
      ParseNatToString(n / 10);
      assert r[..|r| - 1] == NatToString(n / 10);
    }
  }

}
