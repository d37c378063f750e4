/**
 * The character and string checks both screens build on: Kotlin's
 * `Char.isWhitespace`, `CharSequence.isBlank` and `trim`, and the shared
 * minimum-length password rule.
 */
module FieldChecks {

  /** Kotlin's `Char.isWhitespace`: the Unicode space, line and paragraph
      separators (categories Zs, Zl, Zp) and the control characters
      \t, \n, \u000B, \f, \r and \u001C..\u001F. */
  predicate IsWhitespace(c: char) {
    || c == '\t' || c == '\n' || c == '\U{000B}' || c == '\U{000C}' || c == '\r'
    || ('\U{001C}' <= c <= '\U{001F}')
    || c == ' ' || c == '\U{00A0}' || c == '\U{1680}'
    || ('\U{2000}' <= c <= '\U{200A}')
    || c == '\U{2028}' || c == '\U{2029}'
    || c == '\U{202F}' || c == '\U{205F}' || c == '\U{3000}'
  }

  /** Kotlin's `isBlank()`: the string is empty or holds only whitespace. */
  function IsBlank(s: string): (blank: bool)
    ensures blank <==> forall i :: 0 <= i < |s| ==> IsWhitespace(s[i])
  {
    |s| == 0 || (IsWhitespace(s[0]) && IsBlank(s[1..]))
  }

  /** Kotlin's `trimStart()`: drops the leading whitespace. */
  function TrimStart(s: string): string {
    if |s| > 0 && IsWhitespace(s[0]) then TrimStart(s[1..]) else s
  }

  /** Kotlin's `trimEnd()`: drops the trailing whitespace. */
  function TrimEnd(s: string): string {
    if |s| > 0 && IsWhitespace(s[|s| - 1]) then TrimEnd(s[..|s| - 1]) else s
  }

  /** Kotlin's `trim()`. */
  function Trim(s: string): string {
    TrimEnd(TrimStart(s))
  }

  /** A blank string trims to nothing; any other string keeps a
      non-whitespace first character after trimming its start. */
  lemma {:induction false} TrimStartOfBlank(s: string)
    ensures IsBlank(s) ==> TrimStart(s) == ""
    ensures !IsBlank(s) ==> TrimStart(s) != "" && !IsWhitespace(TrimStart(s)[0])
  {
    if |s| > 0 && IsWhitespace(s[0]) {
      assert IsBlank(s) == IsBlank(s[1..]);
      TrimStartOfBlank(s[1..]);
    }
  }

  /** Trimming the end never removes a non-whitespace first character. */
  lemma {:induction false} TrimEndKeepsNonBlankHead(s: string)
    requires s != "" && !IsWhitespace(s[0])
    ensures TrimEnd(s) != ""
  {
    if IsWhitespace(s[|s| - 1]) {
      assert |s| > 1;
      assert s[..|s| - 1][0] == s[0];
      TrimEndKeepsNonBlankHead(s[..|s| - 1]);
    }
  }

  /** `isBlank()` agrees with "the trimmed value is empty". */
  lemma BlankIffTrimmedEmpty(s: string)
    ensures IsBlank(s) <==> Trim(s) == ""
  {
    TrimStartOfBlank(s);
    if !IsBlank(s) {
      TrimEndKeepsNonBlankHead(TrimStart(s));
    }
  }

  /** The shortest password both screens accept. */
  const MinPasswordLength := 6

  /** A character outside the Basic Multilingual Plane, which a JVM string
      stores as a surrogate pair of two UTF-16 code units. */
  predicate IsSupplementary(c: char) {
    c > '\U{FFFF}'
  }

  /** Kotlin's `String.length`: the number of UTF-16 code units, which is two
      for every supplementary character and one for every other. */
  function Utf16Length(s: string): (n: nat)
    ensures |s| <= n <= 2 * |s|
    ensures (forall i :: 0 <= i < |s| ==> !IsSupplementary(s[i])) ==> n == |s|
  {
    if s == [] then 0
    else (if IsSupplementary(s[0]) then 2 else 1) + Utf16Length(s[1..])
  }

  /** Both screens' `isValidPassword`: the raw, untrimmed string is at least
      six UTF-16 code units long. Six characters always suffice, fewer than
      three never do, and without supplementary characters the rule is
      "at least six characters". */
  function IsValidPassword(password: string): (ok: bool)
    ensures |password| >= MinPasswordLength ==> ok
    ensures 2 * |password| < MinPasswordLength ==> !ok
    ensures (forall i :: 0 <= i < |password| ==> !IsSupplementary(password[i]))
            ==> (ok <==> |password| >= MinPasswordLength)
  {
    Utf16Length(password) >= MinPasswordLength
  }

  /** A string made only of supplementary characters is twice as long in
      UTF-16 code units as in characters. */
  lemma {:induction false} SupplementaryOnlyDoubles(s: string)
    requires forall i :: 0 <= i < |s| ==> IsSupplementary(s[i])
    ensures Utf16Length(s) == 2 * |s|
  {
    if s != [] {
      SupplementaryOnlyDoubles(s[1..]);
    }
  }

  /** Three emoji are six UTF-16 code units, so they pass the length rule
      although they are only three characters. */
  lemma ThreeEmojiPassIsValid()
    ensures IsValidPassword("\U{1F600}\U{1F600}\U{1F600}")
  {
  }
}
