/**
 * The string helpers of the utility package: `capitalize`, the two case
 * conversions and `truncate`. Case mapping is that of the ASCII letters.
 */
module StringUtils {
  import opened Common

  /** `capitalize`: the empty string stays empty, otherwise only the first character changes. */
  function Capitalize(input: string): (r: string)
    ensures input == "" ==> r == ""
    ensures input != "" ==> |r| == |input| && r[0] == ToUpperChar(input[0]) && r[1..] == input[1..]
  {
    if input == "" then "" else [ToUpperChar(input[0])] + input[1..]
  }

  // ---- kebab-case and snake_case ----

  predicate NoWhitespace(s: string) {
    forall i :: 0 <= i < |s| ==> !IsJsWhitespace(s[i])
  }

  predicate NoUpper(s: string) {
    forall i :: 0 <= i < |s| ==> !IsAsciiUpper(s[i])
  }

  /** `s.replace(/\s+/g, sep)`: each maximal run of whitespace becomes one `sep`. */
  function CollapseSpace(s: string, sep: char): (r: string)
    requires !IsJsWhitespace(sep)
    ensures NoWhitespace(r)
    ensures |r| <= |s|
    ensures NoUpper(s) && !IsAsciiUpper(sep) ==> NoUpper(r)
    decreases |s|
  {
    if |s| == 0 then ""
    else if IsJsWhitespace(s[0]) then [sep] + CollapseSpace(TrimStart(s), sep)
    else [s[0]] + CollapseSpace(s[1..], sep)
  }

  /** The two conversions differ only in the separator. */
  function CaseConvert(input: string, sep: char): string
    requires !IsJsWhitespace(sep)
  {
    Lower(CollapseSpace(CamelBreak(input, sep), sep))
  }

  /** `kebabCase`: no upper-case letter and no whitespace remains. */
  function KebabCase(input: string): (r: string)
    ensures NoUpper(r) && NoWhitespace(r)
  {
    LowerKeepsShape(CollapseSpace(CamelBreak(input, '-'), '-'));
    CaseConvert(input, '-')
  }

  /** `snakeCase`: `kebabCase` with `_` as the separator. */
  function SnakeCase(input: string): (r: string)
    ensures NoUpper(r) && NoWhitespace(r)
  {
    LowerKeepsShape(CollapseSpace(CamelBreak(input, '_'), '_'));
    CaseConvert(input, '_')
  }

  lemma LowerKeepsShape(s: string)
    ensures NoUpper(Lower(s))
    ensures NoWhitespace(s) ==> NoWhitespace(Lower(s))
  {
  }

  /** A lower-case letter or digit followed by an upper-case letter gets the separator between them. */
  lemma BoundaryGetsSeparator(x: char, y: char, rest: string, sep: char)
    requires IsAsciiLower(x) || IsAsciiDigit(x)
    requires IsAsciiUpper(y)
    ensures CamelBreak([x, y] + rest, sep) == [x, sep, y] + CamelBreak(rest, sep)
  {
    assert ([x, y] + rest)[2..] == rest;
  }

  /** A run of whitespace followed by something else becomes exactly one separator. */
  lemma WhitespaceRunBecomesOne(run: string, rest: string, sep: char)
    requires !IsJsWhitespace(sep)
    requires |run| > 0 && AllWhitespace(run)
    requires rest == [] || !IsJsWhitespace(rest[0])
    ensures CollapseSpace(run + rest, sep) == [sep] + CollapseSpace(rest, sep)
  {
    TrimStartRun(run, rest);
  }

  lemma {:induction false} TrimStartRun(run: string, rest: string)
    requires AllWhitespace(run)
    requires rest == [] || !IsJsWhitespace(rest[0])
    ensures TrimStart(run + rest) == rest
    decreases |run|
  {
    if |run| > 0 {
      assert (run + rest)[1..] == run[1..] + rest;
      TrimStartRun(run[1..], rest);
    } else {
      assert run + rest == rest;
    }
  }

  lemma {:induction false} CamelBreakNoUpper(s: string, sep: char)
    requires NoUpper(s)
    ensures CamelBreak(s, sep) == s
    decreases |s|
  {
    if |s| > 0 {
      CamelBreakNoUpper(s[1..], sep);
      assert s == [s[0]] + s[1..];
    }
  }

  lemma {:induction false} CollapseSpaceNoWhitespace(s: string, sep: char)
    requires !IsJsWhitespace(sep)
    requires NoWhitespace(s)
    ensures CollapseSpace(s, sep) == s
    decreases |s|
  {
    if |s| > 0 {
      CollapseSpaceNoWhitespace(s[1..], sep);
      assert s == [s[0]] + s[1..];
    }
  }

  lemma LowerNoUpper(s: string)
    requires NoUpper(s)
    ensures Lower(s) == s
  {
  }

  /** Converting twice changes nothing more: the result of a conversion is its own conversion. */
  lemma CaseConvertIdempotent(input: string, sep: char)
    requires !IsJsWhitespace(sep) && !IsAsciiUpper(sep)
    ensures CaseConvert(CaseConvert(input, sep), sep) == CaseConvert(input, sep)
  {
    var r := CaseConvert(input, sep);
    LowerKeepsShape(CollapseSpace(CamelBreak(input, sep), sep));
    CamelBreakNoUpper(r, sep);
    CollapseSpaceNoWhitespace(r, sep);
    LowerNoUpper(r);
  }

  lemma KebabIdempotent(input: string)
    ensures KebabCase(KebabCase(input)) == KebabCase(input)
  {
    CaseConvertIdempotent(input, '-');
  }

  lemma SnakeIdempotent(input: string)
    ensures SnakeCase(SnakeCase(input)) == SnakeCase(input)
  {
    CaseConvertIdempotent(input, '_');
  }

  // ---- truncate ----

  const DefaultSuffix: string := "..."

  /**
   * `truncate(input, maxLength, suffix)`: the input when it fits, otherwise
   * its first `max(0, maxLength - |suffix|)` characters followed by the suffix.
   */
  function Truncate(input: string, maxLength: int, suffix: string): (r: string)
    ensures |input| <= maxLength ==> r == input
    ensures |input| > maxLength ==>
      EndsWith(r, suffix) && r[..|r| - |suffix|] == input[..Max(0, maxLength - |suffix|)]
    ensures |input| > maxLength && maxLength >= |suffix| ==> |r| == maxLength
    ensures |input| > maxLength && maxLength <= |suffix| ==> r == suffix
  {
    if |input| <= maxLength then input
    else input[..Max(0, maxLength - |suffix|)] + suffix
  }
}
