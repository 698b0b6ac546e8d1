/**
 * The display helpers of the `git-branches` command: the terminal width of
 * a text, padding to a width, the translation of git's English relative
 * dates into Chinese, and the parsing and filtering of the
 * `for-each-ref` output rows. Running git and printing the table are not
 * part of this model; the command's output text is an input.
 */
module GitBranches {
  import opened Common

  // ---- display width ----

  /** The code points counted as two terminal columns. */
  predicate IsFullWidth(c: char) {
    var code := c as int;
    (0x1100 <= code <= 0x115F)
    || (0x2E80 <= code <= 0xA4CF)
    || (0xAC00 <= code <= 0xD7A3)
    || (0xF900 <= code <= 0xFAFF)
    || (0xFE10 <= code <= 0xFE19)
    || (0xFE30 <= code <= 0xFE6F)
    || (0xFF00 <= code <= 0xFF60)
    || (0xFFE0 <= code <= 0xFFE6)
  }

  function CharWidth(c: char): (w: nat)
    ensures w == 1 || w == 2
    ensures w == 2 <==> IsFullWidth(c)
  {
    if IsFullWidth(c) then 2 else 1
  }

  /** The width of a text: the sum of the widths of its code points. */
  function Width(s: string): nat {
    if |s| == 0 then 0 else Width(s[..|s| - 1]) + CharWidth(s[|s| - 1])
  }

  /** `displayWidth(s)`: one pass over the code points, accumulating their widths. */
  method DisplayWidth(s: string) returns (w: nat)
    ensures w == Width(s)
  {
    w := 0;
    for i := 0 to |s|
      invariant w == Width(s[..i])
    {
      assert s[..i + 1][..i] == s[..i];
      w := w + CharWidth(s[i]);
    }
    assert s[..|s|] == s;
  }

  /** A text is at least as wide as its number of code points and at most twice that. */
  lemma {:induction false} WidthBounds(s: string)
    ensures |s| <= Width(s) <= 2 * |s|
  {
    if |s| > 0 {
      WidthBounds(s[..|s| - 1]);
    }
  }

  lemma {:induction false} WidthAppend(a: string, b: string)
    ensures Width(a + b) == Width(a) + Width(b)
  {
    if |b| > 0 {
      WidthAppend(a, b[..|b| - 1]);
      assert (a + b)[..|a + b| - 1] == a + b[..|b| - 1];
      assert (a + b)[|a + b| - 1] == b[|b| - 1];
      assert Width(a + b) == Width(a + b[..|b| - 1]) + CharWidth(b[|b| - 1]);
      assert Width(b) == Width(b[..|b| - 1]) + CharWidth(b[|b| - 1]);
    } else {
      assert a + b == a;
    }
  }

  function Spaces(n: nat): (r: string)
    ensures |r| == n
    ensures forall i :: 0 <= i < n ==> r[i] == ' '
  {
    seq(n, i => ' ')
  }

  lemma {:induction false} WidthSpaces(n: nat)
    ensures Width(Spaces(n)) == n
  {
    if n > 0 {
      WidthSpaces(n - 1);
      assert Spaces(n)[..n - 1] == Spaces(n - 1);
    }
  }

  /** `padEndDisplay(s, width)`: spaces appended up to the target display width. */
  function PadEndDisplay(s: string, width: int): (r: string)
    ensures |r| >= |s|
  {
    var w := Width(s);
    if w >= width then s else s + Spaces(width - w)
  }

  /**
   * A text already as wide as the target is returned as it is; otherwise
   * only spaces are appended, until the width of the result is exactly the
   * target.
   */
  lemma PadEndDisplayWidth(s: string, width: int)
    ensures Width(s) >= width ==> PadEndDisplay(s, width) == s
    ensures PadEndDisplay(s, width)[..|s|] == s
    ensures forall i :: |s| <= i < |PadEndDisplay(s, width)| ==> PadEndDisplay(s, width)[i] == ' '
    ensures Width(PadEndDisplay(s, width)) == if Width(s) >= width then Width(s) else width
  {
    var w := Width(s);
    if w < width {
      var pad := Spaces(width - w);
      WidthAppend(s, pad);
      WidthSpaces(width - w);
      assert (s + pad)[..|s|] == s;
    }
  }

  /** Padding twice changes nothing more. */
  lemma PadEndDisplayIdempotent(s: string, width: int)
    ensures PadEndDisplay(PadEndDisplay(s, width), width) == PadEndDisplay(s, width)
  {
    PadEndDisplayWidth(s, width);
    PadEndDisplayWidth(PadEndDisplay(s, width), width);
  }

  // ---- relative dates ----

  /** The number of leading characters of `s` that satisfy `p`. */
  function RunLength(s: string, p: char -> bool): (n: nat)
    ensures n <= |s|
  {
    if |s| > 0 && p(s[0]) then 1 + RunLength(s[1..], p) else 0
  }

  /** The run is made of characters satisfying `p`, and the character after it does not. */
  lemma {:induction false} RunLengthSpan(s: string, p: char -> bool)
    ensures forall i :: 0 <= i < RunLength(s, p) ==> p(s[i])
    ensures RunLength(s, p) < |s| ==> !p(s[RunLength(s, p)])
  {
    if |s| > 0 && p(s[0]) {
      RunLengthSpan(s[1..], p);
      forall i | 0 < i < RunLength(s, p)
        ensures p(s[i])
      {
        assert s[i] == s[1..][i - 1];
      }
    }
  }

  /** A run followed by a character outside it is measured exactly, and cut back out. */
  lemma {:induction false} RunLengthConcat(x: string, y: string, p: char -> bool)
    requires forall i :: 0 <= i < |x| ==> p(x[i])
    requires |y| == 0 || !p(y[0])
    ensures RunLength(x + y, p) == |x|
    ensures (x + y)[..|x|] == x && (x + y)[|x|..] == y
  {
    if |x| > 0 {
      assert (x + y)[1..] == x[1..] + y;
      RunLengthConcat(x[1..], y, p);
    }
  }

  predicate NotWhitespace(c: char) {
    !IsJsWhitespace(c)
  }

  /** `\s+` at the start: what follows the white space, when there is some. */
  function SkipSpace(s: string): (r: Option<string>)
    ensures r.Some? ==> |r.value| < |s| && s[|s| - |r.value|..] == r.value
  {
    var k := RunLength(s, IsJsWhitespace);
    if k == 0 then None else Some(s[k..])
  }

  lemma SkipSpaceOf(sp: string, t: string)
    requires sp != "" && AllWhitespace(sp)
    requires t == "" || !IsJsWhitespace(t[0])
    ensures SkipSpace(sp + t) == Some(t)
  {
    RunLengthConcat(sp, t, IsJsWhitespace);
  }

  /** The two captures of `N <word> ago`: the count and the word. */
  datatype Ago = Ago(count: string, word: string)

  /**
   * `^(\d+)\s+(\S+)\s+ago$`: digits, white space, a word without white
   * space, white space, and `ago` at the very end.
   */
  function ParseAgo(s: string): (m: Option<Ago>)
    ensures m.Some? ==> m.value.count != "" && AllDigits(m.value.count) && m.value.word != ""
  {
    var n := RunLength(s, IsAsciiDigit);
    RunLengthSpan(s, IsAsciiDigit);
    if n == 0 then None else ParseUnit(s[..n], s[n..])
  }

  /** `\s+(\S+)\s+ago$`, after the count. */
  function ParseUnit(count: string, a: string): (m: Option<Ago>)
    ensures m.Some? ==> m.value.count == count && m.value.word != ""
  {
    match SkipSpace(a)
    case None => None
    case Some(b) =>
      var w := RunLength(b, NotWhitespace);
      if w == 0 then None else ParseAgoEnd(count, b[..w], b[w..])
  }

  /** `\s+ago$`, after the word. */
  function ParseAgoEnd(count: string, word: string, c: string): (m: Option<Ago>)
    ensures m.Some? ==> m.value == Ago(count, word)
  {
    if SkipSpace(c) == Some("ago") then Some(Ago(count, word)) else None
  }

  /** The text laid out from the pieces `ParseAgo` recognises. */
  function AgoText(count: string, sp1: string, word: string, sp2: string): string {
    count + (sp1 + (word + (sp2 + "ago")))
  }

  predicate AgoPieces(count: string, sp1: string, word: string, sp2: string) {
    count != "" && AllDigits(count) && sp1 != "" && AllWhitespace(sp1)
    && word != "" && (forall i :: 0 <= i < |word| ==> NotWhitespace(word[i]))
    && sp2 != "" && AllWhitespace(sp2)
  }

  lemma ParseAgoEndOf(count: string, word: string, sp2: string)
    requires sp2 != "" && AllWhitespace(sp2)
    ensures ParseAgoEnd(count, word, sp2 + "ago") == Some(Ago(count, word))
  {
    assert !IsJsWhitespace("ago"[0]);
    SkipSpaceOf(sp2, "ago");
  }

  lemma ParseUnitOf(count: string, sp1: string, word: string, c: string)
    requires sp1 != "" && AllWhitespace(sp1)
    requires word != "" && forall i :: 0 <= i < |word| ==> NotWhitespace(word[i])
    requires c != "" && IsJsWhitespace(c[0])
    ensures ParseUnit(count, sp1 + (word + c)) == ParseAgoEnd(count, word, c)
  {
    var b := word + c;
    assert NotWhitespace(b[0]) by { assert b[0] == word[0]; }
    SkipSpaceOf(sp1, b);
    RunLengthConcat(word, c, NotWhitespace);
  }

  lemma ParseAgoOf(count: string, a: string)
    requires count != "" && AllDigits(count)
    requires a != "" && !IsAsciiDigit(a[0])
    ensures ParseAgo(count + a) == ParseUnit(count, a)
  {
    RunLengthConcat(count, a, IsAsciiDigit);
  }

  /** Every text laid out from well-formed pieces is recognised, with its count and word. */
  lemma AgoTextParses(count: string, sp1: string, word: string, sp2: string)
    requires AgoPieces(count, sp1, word, sp2)
    ensures ParseAgo(AgoText(count, sp1, word, sp2)) == Some(Ago(count, word))
  {
    var c := sp2 + "ago";
    var a := sp1 + (word + c);
    assert a[0] == sp1[0] && c[0] == sp2[0];
    ParseAgoOf(count, a);
    ParseUnitOf(count, sp1, word, c);
    ParseAgoEndOf(count, word, sp2);
  }

  /** What `SkipSpace` skips is non-empty white space. */
  lemma SkipSpaceSound(a: string) returns (sp: string)
    requires SkipSpace(a).Some?
    ensures sp != "" && AllWhitespace(sp) && a == sp + SkipSpace(a).value
  {
    var k := RunLength(a, IsJsWhitespace);
    RunLengthSpan(a, IsJsWhitespace);
    sp := a[..k];
    assert a == a[..k] + a[k..];
  }

  /** The word `ParseUnit` takes is a non-empty run without white space. */
  lemma WordSound(b: string)
    ensures var w := RunLength(b, NotWhitespace);
      b == b[..w] + b[w..] && forall i :: 0 <= i < w ==> NotWhitespace(b[..w][i])
  {
    var w := RunLength(b, NotWhitespace);
    RunLengthSpan(b, NotWhitespace);
    assert b == b[..w] + b[w..];
  }

  lemma ParseUnitSound(count: string, a: string) returns (sp1: string, sp2: string)
    requires ParseUnit(count, a).Some?
    ensures var word := ParseUnit(count, a).value.word;
      sp1 != "" && AllWhitespace(sp1) && sp2 != "" && AllWhitespace(sp2)
      && (forall i :: 0 <= i < |word| ==> NotWhitespace(word[i]))
      && a == sp1 + (word + (sp2 + "ago"))
  {
    var b := SkipSpace(a).value;
    sp1 := SkipSpaceSound(a);
    var w := RunLength(b, NotWhitespace);
    var word, c := b[..w], b[w..];
    WordSound(b);
    assert ParseUnit(count, a) == ParseAgoEnd(count, word, c);
    assert SkipSpace(c) == Some("ago");
    sp2 := SkipSpaceSound(c);
  }

  /** A recognised text starts with its count, a non-empty run of digits. */
  lemma ParseAgoCount(s: string) returns (n: nat)
    requires ParseAgo(s).Some?
    ensures n <= |s| && s == s[..n] + s[n..]
    ensures ParseAgo(s) == ParseUnit(s[..n], s[n..])
    ensures s[..n] != "" && AllDigits(s[..n])
  {
    n := RunLength(s, IsAsciiDigit);
    RunLengthSpan(s, IsAsciiDigit);
    assert s == s[..n] + s[n..];
  }

  /** Every recognised text is laid out from well-formed pieces. */
  lemma ParseAgoSound(s: string) returns (sp1: string, sp2: string)
    requires ParseAgo(s).Some?
    ensures AgoPieces(ParseAgo(s).value.count, sp1, ParseAgo(s).value.word, sp2)
    ensures s == AgoText(ParseAgo(s).value.count, sp1, ParseAgo(s).value.word, sp2)
  {
    var n := ParseAgoCount(s);
    sp1, sp2 := ParseUnitSound(s[..n], s[n..]);
  }

  /** The English units in the order they are tried, and their Chinese renderings. */
  const Units: seq<string> := ["second", "minute", "hour", "day", "week", "month", "year"]
  const ZhUnits: seq<string> := [
    "\U{79D2}\U{524D}",
    "\U{5206}\U{949F}\U{524D}",
    "\U{5C0F}\U{65F6}\U{524D}",
    "\U{5929}\U{524D}",
    "\U{5468}\U{524D}",
    "\U{4E2A}\U{6708}\U{524D}",
    "\U{5E74}\U{524D}"
  ]
  /** The positions of the units that may also follow `about`: minute, hour, day, month and year. */
  const AboutUnits: set<nat> := {1, 2, 3, 5, 6}
  const Yesterday := "\U{6628}\U{5929}"
  const Today := "\U{4ECA}\U{5929}"

  /** The first two letters, which tell the units apart. */
  const UnitKeys: seq<(char, char)> := [('s', 'e'), ('m', 'i'), ('h', 'o'), ('d', 'a'), ('w', 'e'), ('m', 'o'), ('y', 'e')]

  /** `unit` or its plural `unit + "s"`, as in `units?`. */
  predicate NamesUnit(word: string, unit: string) {
    word == unit || word == unit + "s"
  }

  function UnitWord(i: nat, plural: bool): string
    requires i < |Units|
  {
    Units[i] + (if plural then "s" else "")
  }

  /** The position of the first unit the word names. */
  function FindUnit(word: string, from: nat): (r: Option<nat>)
    requires from <= |Units|
    ensures r.Some? ==> from <= r.value < |Units| && NamesUnit(word, Units[r.value])
    ensures r.Some? ==> forall j :: from <= j < r.value ==> !NamesUnit(word, Units[j])
    ensures r.None? ==> forall j :: from <= j < |Units| ==> !NamesUnit(word, Units[j])
    decreases |Units| - from
  {
    if from == |Units| then None
    else if NamesUnit(word, Units[from]) then Some(from)
    else FindUnit(word, from + 1)
  }

  lemma UnitKeyOf(word: string, j: nat)
    requires j < |Units|
    ensures NamesUnit(word, Units[j]) ==> |word| >= 2 && (word[0], word[1]) == UnitKeys[j]
  {
    assert |Units[j]| >= 3 && (Units[j][0], Units[j][1]) == UnitKeys[j] by {
      if j == 0 {} else if j == 1 {} else if j == 2 {} else if j == 3 {} else if j == 4 {} else if j == 5 {} else {}
    }
    if NamesUnit(word, Units[j]) {
      assert word[..|Units[j]|] == Units[j];
      assert word[0] == Units[j][0] && word[1] == Units[j][1];
    }
  }

  /** A unit and its plural name that unit and no earlier one. */
  lemma FindUnitOf(i: nat, plural: bool)
    requires i < |Units|
    ensures FindUnit(UnitWord(i, plural), 0) == Some(i)
  {
    var word := UnitWord(i, plural);
    UnitKeyOf(word, i);
    forall j | 0 <= j < i
      ensures !NamesUnit(word, Units[j])
    {
      UnitKeyOf(word, j);
      assert UnitKeys[j] != UnitKeys[i];
    }
    assert NamesUnit(word, Units[i]);
  }

  /** `^about\s+(\d+)\s+(\S+)\s+ago$`. */
  function AboutAgo(s: string): Option<Ago> {
    if |s| < 5 || s[..5] != "about" then None
    else
      match SkipSpace(s[5..])
      case None => None
      case Some(t) => ParseAgo(t)
  }

  function AboutText(sp0: string, count: string, sp1: string, word: string, sp2: string): string {
    "about" + (sp0 + AgoText(count, sp1, word, sp2))
  }

  /** The matching of the lower-cased, trimmed text `s`; `rel` is what comes back when nothing matches. */
  function Translate(s: string, rel: string): string {
    var p := ParseAgo(s);
    if p.Some? && FindUnit(p.value.word, 0).Some? then
      p.value.count + ZhUnits[FindUnit(p.value.word, 0).value]
    else if s == "yesterday" then Yesterday
    else if s == "today" then Today
    else
      var q := AboutAgo(s);
      if q.Some? && FindUnit(q.value.word, 0).Some? && FindUnit(q.value.word, 0).value in AboutUnits then
        q.value.count + ZhUnits[FindUnit(q.value.word, 0).value]
      else rel
  }

  /**
   * `zhRelative(rel)`: the lower-cased, trimmed text is matched in turn
   * against `N unit(s) ago`, `yesterday`, `today` and `about N unit(s) ago`;
   * the first match gives `N` followed by the Chinese unit, and a text that
   * matches nothing comes back exactly as it was given.
   */
  function ZhRelative(rel: string): string {
    Translate(Trim(Lower(rel)), rel)
  }

  /** `N unit(s) ago`, in any case and with surrounding white space, becomes `N` and the Chinese unit. */
  lemma ZhRelativeAgo(rel: string, count: string, sp1: string, i: nat, plural: bool, sp2: string)
    requires i < |Units|
    requires AgoPieces(count, sp1, UnitWord(i, plural), sp2)
    requires Trim(Lower(rel)) == AgoText(count, sp1, UnitWord(i, plural), sp2)
    ensures ZhRelative(rel) == count + ZhUnits[i]
  {
    AgoTextParses(count, sp1, UnitWord(i, plural), sp2);
    FindUnitOf(i, plural);
  }

  lemma AboutSplit(sp0: string, tail: string)
    ensures var s := "about" + (sp0 + tail);
      s[..5] == "about" && s[5..] == sp0 + tail && ParseAgo(s).None?
  {
    var s := "about" + (sp0 + tail);
    assert s[0] == 'a';
    assert RunLength(s, IsAsciiDigit) == 0;
  }

  /** What `about` and white space lead to, for a well-formed tail. */
  lemma AboutAgoOf(sp0: string, count: string, sp1: string, word: string, sp2: string)
    requires sp0 != "" && AllWhitespace(sp0)
    requires AgoPieces(count, sp1, word, sp2)
    ensures ParseAgo(AboutText(sp0, count, sp1, word, sp2)).None?
    ensures AboutAgo(AboutText(sp0, count, sp1, word, sp2)) == Some(Ago(count, word))
  {
    var tail := AgoText(count, sp1, word, sp2);
    AboutSplit(sp0, tail);
    assert tail[0] == count[0];
    SkipSpaceOf(sp0, tail);
    AgoTextParses(count, sp1, word, sp2);
  }

  /** `about N unit(s) ago` becomes `N` and the Chinese unit for the units that allow `about`. */
  lemma ZhRelativeAbout(rel: string, sp0: string, count: string, sp1: string, i: nat, plural: bool, sp2: string)
    requires i < |Units| && i in AboutUnits
    requires sp0 != "" && AllWhitespace(sp0)
    requires AgoPieces(count, sp1, UnitWord(i, plural), sp2)
    requires Trim(Lower(rel)) == AboutText(sp0, count, sp1, UnitWord(i, plural), sp2)
    ensures ZhRelative(rel) == count + ZhUnits[i]
  {
    var s := Trim(Lower(rel));
    AboutAgoOf(sp0, count, sp1, UnitWord(i, plural), sp2);
    FindUnitOf(i, plural);
    assert s[0] == 'a';
    assert s != "yesterday" && s != "today";
  }

  /** `about N weeks ago` and `about N seconds ago` are not translated. */
  lemma ZhRelativeAboutKept(rel: string, sp0: string, count: string, sp1: string, i: nat, plural: bool, sp2: string)
    requires i < |Units| && i !in AboutUnits
    requires sp0 != "" && AllWhitespace(sp0)
    requires AgoPieces(count, sp1, UnitWord(i, plural), sp2)
    requires Trim(Lower(rel)) == AboutText(sp0, count, sp1, UnitWord(i, plural), sp2)
    ensures ZhRelative(rel) == rel
  {
    var s := Trim(Lower(rel));
    AboutAgoOf(sp0, count, sp1, UnitWord(i, plural), sp2);
    FindUnitOf(i, plural);
    assert s[0] == 'a';
    assert s != "yesterday" && s != "today";
  }

  /** `yesterday` and `today`, in any case and with surrounding white space. */
  lemma ZhRelativeDays(rel: string)
    ensures Trim(Lower(rel)) == "yesterday" ==> ZhRelative(rel) == Yesterday
    ensures Trim(Lower(rel)) == "today" ==> ZhRelative(rel) == Today
  {
    var s := Trim(Lower(rel));
    assert s == "yesterday" || s == "today" ==> !IsAsciiDigit(s[0]);
  }

  /** The texts `zhRelative` translates. */
  ghost predicate Recognised(s: string) {
    s == "yesterday" || s == "today"
    || (exists count, sp1, i: nat, plural, sp2 :: i < |Units| && AgoPieces(count, sp1, UnitWord(i, plural), sp2)
          && s == AgoText(count, sp1, UnitWord(i, plural), sp2))
    || (exists sp0, count, sp1, i: nat, plural, sp2 :: i < |Units| && i in AboutUnits && sp0 != "" && AllWhitespace(sp0)
          && AgoPieces(count, sp1, UnitWord(i, plural), sp2) && s == AboutText(sp0, count, sp1, UnitWord(i, plural), sp2))
  }

  lemma AgoRecognised(s: string)
    requires ParseAgo(s).Some? && FindUnit(ParseAgo(s).value.word, 0).Some?
    ensures Recognised(s)
  {
    var p := ParseAgo(s).value;
    var i := FindUnit(p.word, 0).value;
    var plural := p.word != Units[i];
    assert p.word == UnitWord(i, plural);
    var sp1, sp2 := ParseAgoSound(s);
    assert AgoPieces(p.count, sp1, UnitWord(i, plural), sp2) && s == AgoText(p.count, sp1, UnitWord(i, plural), sp2);
  }

  lemma AboutAgoSound(s: string) returns (sp0: string, t: string)
    requires AboutAgo(s).Some?
    ensures sp0 != "" && AllWhitespace(sp0)
    ensures ParseAgo(t) == AboutAgo(s)
    ensures s == "about" + (sp0 + t)
  {
    var u := s[5..];
    t := SkipSpace(u).value;
    sp0 := SkipSpaceSound(u);
    assert s == s[..5] + u;
  }

  lemma AboutRecognised(s: string)
    requires AboutAgo(s).Some? && FindUnit(AboutAgo(s).value.word, 0).Some?
    requires FindUnit(AboutAgo(s).value.word, 0).value in AboutUnits
    ensures Recognised(s)
  {
    var q := AboutAgo(s).value;
    var i := FindUnit(q.word, 0).value;
    var plural := q.word != Units[i];
    assert q.word == UnitWord(i, plural);
    var sp0, t := AboutAgoSound(s);
    var sp1, sp2 := ParseAgoSound(t);
    assert s == AboutText(sp0, q.count, sp1, UnitWord(i, plural), sp2);
  }

  /** Any other text comes back unchanged: the original, not the lower-cased or trimmed one. */
  lemma ZhRelativeFallback(rel: string)
    ensures ZhRelative(rel) != rel ==> Recognised(Trim(Lower(rel)))
  {
    var s := Trim(Lower(rel));
    var p := ParseAgo(s);
    var q := AboutAgo(s);
    if p.Some? && FindUnit(p.value.word, 0).Some? {
      AgoRecognised(s);
    } else if q.Some? && FindUnit(q.value.word, 0).Some? && FindUnit(q.value.word, 0).value in AboutUnits {
      AboutRecognised(s);
    }
  }

  // ---- rows ----

  /** The characters JavaScript's `.` does not match. */
  predicate IsLineTerminator(c: char) {
    c == '\n' || c == '\r' || c == '\U{2028}' || c == '\U{2029}'
  }

  predicate NotLineTerminator(c: char) {
    !IsLineTerminator(c)
  }

  /** The last `/` at a position from 1 up to (not including) `end`. */
  function LastSlash(s: string, end: nat): (r: Option<nat>)
    requires end <= |s|
    ensures r.Some? ==> 1 <= r.value < end && s[r.value] == '/'
    ensures r.Some? ==> forall j :: r.value < j < end ==> s[j] != '/'
    ensures r.None? ==> forall j :: 1 <= j < end ==> s[j] != '/'
  {
    if end <= 1 then None
    else if s[end - 1] == '/' then Some(end - 1)
    else LastSlash(s, end - 1)
  }

  /**
   * `ref.replace(/^.+\//, '')`: everything up to and including the last `/`
   * that has at least one character before it on the first line is removed.
   */
  function StripRemote(ref: string): (name: string)
    ensures name == ref || (|name| < |ref| && ref[|ref| - |name| - 1] == '/' && ref[|ref| - |name|..] == name)
    ensures forall i :: 1 <= i < RunLength(name, NotLineTerminator) ==> name[i] != '/'
  {
    var lineEnd := RunLength(ref, NotLineTerminator);
    match LastSlash(ref, lineEnd)
    case None => ref
    case Some(j) =>
      var name := ref[j + 1..];
      RunLengthOfSuffix(ref, j + 1, lineEnd);
      assert forall i :: 1 <= i < lineEnd - j - 1 ==> name[i] == ref[j + 1 + i];
      name
  }

  lemma RunLengthOfSuffix(s: string, from: nat, lineEnd: nat)
    requires from <= lineEnd == RunLength(s, NotLineTerminator)
    ensures RunLength(s[from..], NotLineTerminator) == lineEnd - from
  {
    RunLengthSpan(s, NotLineTerminator);
    assert s[from..] == s[from..lineEnd] + s[lineEnd..];
    assert forall i :: 0 <= i < lineEnd - from ==> s[from..lineEnd][i] == s[from + i];
    RunLengthConcat(s[from..lineEnd], s[lineEnd..], NotLineTerminator);
  }

  /** A remote branch `origin/feature/x` is listed as `x`. */
  lemma StripRemoteOfPath(remote: string, branch: string)
    requires remote != ""
    requires forall i :: 0 <= i < |branch| ==> branch[i] != '/' && NotLineTerminator(branch[i])
    requires forall i :: 0 <= i < |remote| ==> NotLineTerminator(remote[i])
    ensures StripRemote(remote + "/" + branch) == branch
  {
    var ref := remote + "/" + branch;
    RunLengthConcat(ref, "", NotLineTerminator);
    assert ref + "" == ref;
    var r := LastSlash(ref, |ref|);
    assert ref[|remote|] == '/';
    forall j | |remote| < j < |ref|
      ensures ref[j] != '/'
    {
      assert ref[j] == branch[j - |remote| - 1];
    }
    assert r == Some(|remote|);
    assert ref[|remote| + 1..] == branch;
  }

  /** One table row. */
  datatype Row = Row(name: string, relZh: string, sha: string, subject: string)

  /** `parts[i] || ''`. */
  function PartOr(parts: seq<string>, i: nat): string {
    if i < |parts| then parts[i] else ""
  }

  /** One output line `name\trelative date\tsha\tsubject`, split on tabs. */
  function ParseRow(line: string): Row {
    var parts := Split(line, '\t');
    var sha := PartOr(parts, 2);
    Row(StripRemote(PartOr(parts, 0)), ZhRelative(PartOr(parts, 1)), if |sha| <= 7 then sha else sha[..7], PartOr(parts, 3))
  }

  /**
   * The name is the first field without its remote, the date the second
   * translated, the hash the first seven characters of the third, and the
   * subject the fourth; a missing field reads as empty.
   */
  lemma ParseRowFields(line: string)
    ensures var row, parts := ParseRow(line), Split(line, '\t');
      row.name == StripRemote(parts[0])
      && row.relZh == ZhRelative(PartOr(parts, 1))
      && |row.sha| == (if |PartOr(parts, 2)| < 7 then |PartOr(parts, 2)| else 7)
      && StartsWith(PartOr(parts, 2), row.sha)
      && row.subject == PartOr(parts, 3)
  {
  }

  predicate Listed(row: Row) {
    row.name != "" && row.name != "HEAD"
  }

  /** The rows of the non-empty lines, without those named `HEAD` or with no name, in their order. */
  function RowsOf(lines: seq<string>): (rows: seq<Row>)
    ensures |rows| <= |lines|
  {
    if |lines| == 0 then []
    else if Shown(lines[0]) then [ParseRow(lines[0])] + RowsOf(lines[1..])
    else RowsOf(lines[1..])
  }

  /** A line that gives a row of the table. */
  predicate Shown(line: string) {
    line != "" && Listed(ParseRow(line))
  }

  /** Every row is listed: it has a name, and the name is not `HEAD`. */
  lemma {:induction false} RowsOfListed(lines: seq<string>)
    ensures forall i :: 0 <= i < |RowsOf(lines)| ==> Listed(RowsOf(lines)[i])
  {
    if |lines| > 0 {
      RowsOfListed(lines[1..]);
    }
  }

  /** `out.split('\n').filter(Boolean)` and then the rows. */
  function Rows(out: string): seq<Row> {
    RowsOf(Split(out, '\n'))
  }

  /** Rows keep the order of the lines: those of a concatenation are the concatenation of the rows. */
  lemma {:induction false} RowsOfAppend(a: seq<string>, b: seq<string>)
    ensures RowsOf(a + b) == RowsOf(a) + RowsOf(b)
  {
    if |a| > 0 {
      assert (a + b)[1..] == a[1..] + b;
      RowsOfAppend(a[1..], b);
    } else {
      assert a + b == b;
    }
  }

  /** A single line yields its row exactly when it is non-empty and the row is listed. */
  lemma RowsOfOne(line: string)
    ensures RowsOf([line]) == if Shown(line) then [ParseRow(line)] else []
  {
    assert [line][1..] == [];
  }

  /** A shown first line gives the first row. */
  lemma RowsOfShown(lines: seq<string>)
    requires |lines| > 0 && Shown(lines[0])
    ensures RowsOf(lines) == [ParseRow(lines[0])] + RowsOf(lines[1..])
  {
  }

  /** A hidden first line gives no row. */
  lemma RowsOfHidden(lines: seq<string>)
    requires |lines| > 0 && !Shown(lines[0])
    ensures RowsOf(lines) == RowsOf(lines[1..])
  {
  }

  /** Every row is the row of one of the shown lines. */
  lemma {:induction false} RowFromLine(lines: seq<string>, r: Row) returns (i: nat)
    requires r in RowsOf(lines)
    ensures i < |lines| && Shown(lines[i]) && ParseRow(lines[i]) == r
  {
    var head, tail := lines[0], lines[1..];
    if Shown(head) {
      RowsOfShown(lines);
      if r == ParseRow(head) {
        return 0;
      }
    } else {
      RowsOfHidden(lines);
    }
    assert r in RowsOf(tail);
    var k := RowFromLine(tail, r);
    assert tail[k] == lines[k + 1];
    i := k + 1;
  }


}
