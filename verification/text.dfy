/** The few `kotlin.text` operations the view models rely on. */
module Text {

  /** ASCII lower-casing; every other character is its own fold. */
  function LowerAscii(c: char): (d: char)
    ensures 'A' <= c <= 'Z' ==> 'a' <= d <= 'z' && d as int - 'a' as int == c as int - 'A' as int
    ensures !('A' <= c <= 'Z') ==> d == c
  {
    if 'A' <= c <= 'Z' then (c as int + 32) as char else c
  }

  /** Character equality ignoring the case of ASCII letters; Kotlin's
      `Char.equals(other, ignoreCase = true)` also folds the rest of Unicode. */
  predicate CharEqualsIgnoreCase(a: char, b: char) {
    LowerAscii(a) == LowerAscii(b)
  }

  predicate IsAsciiLetter(c: char) {
    'A' <= c <= 'Z' || 'a' <= c <= 'z'
  }

  /** Two characters compare equal ignoring case exactly when they are equal
      or are the upper- and lower-case forms of one ASCII letter. */
  lemma CharEqualsIgnoreCaseCases(a: char, b: char)
    ensures CharEqualsIgnoreCase(a, b) <==>
      a == b || (IsAsciiLetter(a) && IsAsciiLetter(b) && (a as int - b as int == 32 || b as int - a as int == 32))
  {
  }

  /** `q` occurs in `s` at offset `i`, ignoring case. */
  predicate MatchesAt(s: string, i: nat, q: string) {
    i + |q| <= |s| && forall j :: 0 <= j < |q| ==> CharEqualsIgnoreCase(s[i + j], q[j])
  }

  /** `s.contains(q, ignoreCase = true)`: some offset of `s` starts a
      case-insensitive copy of `q`. */
  function ContainsIgnoreCase(s: string, q: string): (r: bool)
    ensures r <==> exists i: nat :: i <= |s| && MatchesAt(s, i, q)
  {
    ContainsFrom(s, q, 0)
  }

  /** The scan behind `ContainsIgnoreCase`, trying offsets from `from` on. */
  function ContainsFrom(s: string, q: string, from: nat): (r: bool)
    requires from <= |s|
    ensures r <==> exists i: nat :: from <= i <= |s| && MatchesAt(s, i, q)
    decreases |s| - from
  {
    if MatchesAt(s, from, q) then true
    else if from == |s| then false
    else ContainsFrom(s, q, from + 1)
  }

  /** A string none of whose characters folds to the first character of `q`
      does not contain `q`. */
  lemma NoFirstCharacterNoMatch(s: string, q: string)
    requires |q| > 0
    requires forall i :: 0 <= i < |s| ==> !CharEqualsIgnoreCase(s[i], q[0])
    ensures !ContainsIgnoreCase(s, q)
  {
    forall i: nat | i <= |s|
      ensures !MatchesAt(s, i, q)
    {
      if i + |q| <= |s| {
        assert !CharEqualsIgnoreCase(s[i + 0], q[0]);
      }
    }
  }

  /** Every string contains the empty string, whatever the case folding. */
  lemma ContainsEmpty(s: string)
    ensures ContainsIgnoreCase(s, "")
  {
    assert MatchesAt(s, 0, "");
  }

  /** `Char.isWhitespace()` on the JVM: Java's `isWhitespace` or `isSpaceChar`,
      i.e. the Unicode space, line and paragraph separators plus the ASCII
      control characters TAB..CR and FS..US. */
  predicate IsWhitespace(c: char) {
    var u := c as int;
    || (0x0009 <= u <= 0x000D) || (0x001C <= u <= 0x001F)
    || u == 0x0020 || u == 0x00A0 || u == 0x1680
    || (0x2000 <= u <= 0x200A)
    || u == 0x2028 || u == 0x2029 || u == 0x202F || u == 0x205F || u == 0x3000
  }

  /** The whitespace table, as the JVM classifies it: in ASCII exactly TAB,
      LF, VT, FF, CR, the four separators FS..US and the space; the no-break
      spaces count (they are space characters); the zero-width space and NEL
      do not; and no whitespace character is a letter or a digit. */
  lemma IsWhitespaceTable(c: char)
    ensures c as int < 0x80 ==> (IsWhitespace(c) <==> (9 <= c as int <= 13 || 28 <= c as int <= 32))
    ensures IsWhitespace('\U{00A0}') && IsWhitespace('\U{2007}') && IsWhitespace('\U{202F}')
    ensures !IsWhitespace('\U{200B}') && !IsWhitespace('\U{0085}') && !IsWhitespace('\U{FEFF}')
    ensures IsWhitespace(c) ==> !IsAsciiLetter(c) && !('0' <= c <= '9')
  {
  }

  /** `s.isBlank()`: every character is whitespace (so "" is blank). */
  predicate IsBlank(s: string) {
    forall i :: 0 <= i < |s| ==> IsWhitespace(s[i])
  }

  /** Leading whitespace removed, as `trimStart()` does. */
  function TrimStart(s: string): (r: string)
    ensures |r| <= |s| && r == s[|s| - |r|..]
    ensures |r| > 0 ==> !IsWhitespace(r[0])
    ensures IsBlank(s[..|s| - |r|])
    decreases |s|
  {
    if |s| > 0 && IsWhitespace(s[0]) then TrimStart(s[1..]) else s
  }

  /** A string is blank exactly when trimming its leading whitespace leaves
      nothing. */
  lemma {:induction false} IsBlankIffTrimsToEmpty(s: string)
    ensures IsBlank(s) <==> |TrimStart(s)| == 0
    decreases |s|
  {
    if |s| > 0 && IsWhitespace(s[0]) {
      IsBlankIffTrimsToEmpty(s[1..]);
      assert IsBlank(s) <==> IsBlank(s[1..]) by {
        if IsBlank(s[1..]) {
          forall i | 0 <= i < |s|
            ensures IsWhitespace(s[i])
          {
            if i > 0 { assert s[i] == s[1..][i - 1]; }
          }
        }
      }
    }
  }

  /** A concatenation is blank exactly when both parts are. */
  lemma IsBlankConcat(a: string, b: string)
    ensures IsBlank(a + b) <==> IsBlank(a) && IsBlank(b)
  {
    if IsBlank(a + b) {
      forall i | 0 <= i < |a|
        ensures IsWhitespace(a[i])
      {
        assert a[i] == (a + b)[i];
      }
      forall i | 0 <= i < |b|
        ensures IsWhitespace(b[i])
      {
        assert b[i] == (a + b)[|a| + i];
      }
    }
    if IsBlank(a) && IsBlank(b) {
      forall i | 0 <= i < |a + b|
        ensures IsWhitespace((a + b)[i])
      {
        if i >= |a| { assert (a + b)[i] == b[i - |a|]; }
      }
    }
  }

  /** `String.length` on the JVM counts UTF-16 code units: characters beyond
      the Basic Multilingual Plane take two. */
  function Utf16Length(s: string): (n: nat)
    ensures |s| <= n <= 2 * |s|
    ensures n == 0 <==> |s| == 0
    ensures (forall i :: 0 <= i < |s| ==> s[i] as int <= 0xFFFF) ==> n == |s|
    ensures (forall i :: 0 <= i < |s| ==> s[i] as int > 0xFFFF) ==> n == 2 * |s|
    ensures |s| == 1 ==> n == if s[0] as int > 0xFFFF then 2 else 1
  {
    if |s| == 0 then 0
    else (if s[0] as int > 0xFFFF then 2 else 1) + Utf16Length(s[1..])
  }

  /** Lengths add up over concatenation. */
  lemma {:induction false} Utf16LengthConcat(s: string, t: string)
    ensures Utf16Length(s + t) == Utf16Length(s) + Utf16Length(t)
    decreases |s|
  {
    if |s| > 0 {
      assert (s + t)[0] == s[0];
      assert (s + t)[1..] == s[1..] + t;
      Utf16LengthConcat(s[1..], t);
    } else {
      assert s + t == t;
    }
  }
}
