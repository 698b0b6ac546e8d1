/**
 * The colour validators of the `is` package: hexadecimal colours and the
 * `rgb()`/`rgba()` functional notations, a subset of sections 5.1 and 5.2
 * of CSS Color Module Level 4. A percentage channel and the alpha value are
 * read with `parseFloat`; those two tests are parameters here.
 */
module Color {
  import opened Common
  import opened JsValue

  predicate IsHexDigit(c: char) {
    IsAsciiDigit(c) || 'a' <= c <= 'f' || 'A' <= c <= 'F'
  }

  predicate AllHex(s: string) {
    forall i :: 0 <= i < |s| ==> IsHexDigit(s[i])
  }

  /** `/^#(?:[0-9a-f]{3}|[0-9a-f]{6})$/i` on strings, false for anything else. */
  function IsHexColor(v: Value): (b: bool)
    ensures !v.Str? ==> !b
    ensures b ==> |v.s| == 4 || |v.s| == 7
  {
    v.Str? && (|v.s| == 4 || |v.s| == 7) && v.s[0] == '#' && AllHex(v.s[1..])
  }

  /** Every `#` followed by three or six hex digits is accepted, and nothing else. */
  lemma HexColorIff(digits: string)
    ensures IsHexColor(Str("#" + digits)) <==> (|digits| == 3 || |digits| == 6) && AllHex(digits)
  {
    assert ("#" + digits)[1..] == digits;
  }

  /** The test ignores case. */
  lemma HexColorIgnoresCase(s: string)
    ensures IsHexColor(Str(Upper(s))) == IsHexColor(Str(s))
    ensures IsHexColor(Str(Lower(s))) == IsHexColor(Str(s))
  {
    if |s| > 0 {
      assert Upper(s)[1..] == Upper(s[1..]);
      assert Lower(s)[1..] == Lower(s[1..]);
    }
  }

  // ---- channels ----

  /** The longest prefix of ASCII digits. */
  function DigitRun(s: string): (r: string)
    ensures AllDigits(r) && |r| <= |s| && r == s[..|r|]
    ensures |r| < |s| ==> !IsAsciiDigit(s[|r|])
  {
    if |s| > 0 && IsAsciiDigit(s[0]) then [s[0]] + DigitRun(s[1..]) else ""
  }

  /** `Number.parseInt(s, 10)`: leading whitespace, an optional sign, then at least one digit; `None` is `NaN`. */
  function ParseInt(s: string): (r: Option<int>)
    ensures r.Some? ==> DigitRun(TrimStart(s)) != "" || (|TrimStart(s)| > 0 && DigitRun(TrimStart(s)[1..]) != "")
  {
    var t := TrimStart(s);
    var negative := |t| > 0 && t[0] == '-';
    var body := if |t| > 0 && (t[0] == '-' || t[0] == '+') then t[1..] else t;
    var digits := DigitRun(body);
    if digits == "" then None
    else if negative then Some(-(DigitsValue(digits) as int))
    else Some(DigitsValue(digits))
  }

  lemma ParseIntOfNat(n: nat)
    ensures ParseInt(NatToString(n)) == Some(n)
  {
    var s := NatToString(n);
    DigitRunAll(s);
    DigitsUntrimmed(s);
    DigitsValueOfNatToString(n);
  }

  lemma {:induction false} DigitRunAll(s: string)
    requires AllDigits(s)
    ensures DigitRun(s) == s
  {
    if |s| > 0 {
      assert AllDigits(s[1..]);
      DigitRunAll(s[1..]);
      assert s == [s[0]] + s[1..];
    }
  }

  lemma DigitsUntrimmed(s: string)
    requires AllDigits(s)
    ensures TrimStart(s) == s
  {
    if |s| > 0 {
      assert !IsJsWhitespace(s[0]);
    }
  }


  /** `isValidRgbChannel`: a percentage as judged by `percentOk`, otherwise a leading integer in 0..255. */
  function IsValidRgbChannel(str: string, percentOk: string -> bool): (b: bool)
    ensures EndsWith(str, "%") ==> (b <==> percentOk(str))
    ensures !EndsWith(str, "%") ==> (b <==> ParseInt(str).Some? && 0 <= ParseInt(str).value <= 255)
  {
    if EndsWith(str, "%") then percentOk(str)
    else
      var num := ParseInt(str);
      num.Some? && 0 <= num.value <= 255
  }

  // ---- rgb() and rgba() ----

  /** `/^<name>\([^)]+\)$/i`: the name and `(`, one or more characters other than `)`, then `)`. */
  predicate FunctionShape(s: string, name: string) {
    |s| >= |name| + 3 && Lower(s[..|name|]) == name && s[|name|] == '(' && s[|s| - 1] == ')' &&
    forall i :: |name| < i < |s| - 1 ==> s[i] != ')'
  }

  /** The comma-separated parts between the first `(` and the last `)`, each trimmed. */
  function Parts(s: string, name: string): (r: seq<string>)
    requires FunctionShape(s, name)
  {
    var inner := s[|name| + 1..|s| - 1];
    var pieces := Split(inner, ',');
    seq(|pieces|, i requires 0 <= i < |pieces| => Trim(pieces[i]))
  }

  /** `isRgbColor`: `rgb(` ... `)` with exactly three valid channels. */
  function IsRgbColor(v: Value, percentOk: string -> bool): (b: bool)
    ensures !v.Str? ==> !b
    ensures b ==> FunctionShape(v.s, "rgb") && |Parts(v.s, "rgb")| == 3
    ensures b ==> forall i :: 0 <= i < 3 ==> IsValidRgbChannel(Parts(v.s, "rgb")[i], percentOk)
    ensures (v.Str? && FunctionShape(v.s, "rgb") && |Parts(v.s, "rgb")| == 3 &&
             forall i :: 0 <= i < 3 ==> IsValidRgbChannel(Parts(v.s, "rgb")[i], percentOk)) ==> b
  {
    v.Str? && FunctionShape(v.s, "rgb") &&
    var parts := Parts(v.s, "rgb");
    |parts| == 3 && forall i :: 0 <= i < 3 ==> IsValidRgbChannel(parts[i], percentOk)
  }

  /** `isRgbaColor`: `rgba(` ... `)` with exactly four parts, three valid channels and an alpha accepted by `alphaOk`. */
  function IsRgbaColor(v: Value, percentOk: string -> bool, alphaOk: string -> bool): (b: bool)
    ensures !v.Str? ==> !b
    ensures b ==> FunctionShape(v.s, "rgba") && |Parts(v.s, "rgba")| == 4
    ensures b ==> alphaOk(Parts(v.s, "rgba")[3])
    ensures b ==> forall i :: 0 <= i < 3 ==> IsValidRgbChannel(Parts(v.s, "rgba")[i], percentOk)
    ensures (v.Str? && FunctionShape(v.s, "rgba") && |Parts(v.s, "rgba")| == 4 && alphaOk(Parts(v.s, "rgba")[3]) &&
             forall i :: 0 <= i < 3 ==> IsValidRgbChannel(Parts(v.s, "rgba")[i], percentOk)) ==> b
  {
    v.Str? && FunctionShape(v.s, "rgba") &&
    var parts := Parts(v.s, "rgba");
    |parts| == 4 && (forall i :: 0 <= i < 3 ==> IsValidRgbChannel(parts[i], percentOk)) && alphaOk(parts[3])
  }

  /** The text `rgb(r,g,b)` for three channel values. */
  function RgbText(r: nat, g: nat, b: nat): string {
    "rgb" + "(" + Join([NatToString(r), NatToString(g), NatToString(b)], ",") + ")"
  }

  predicate NoCloseParen(s: string) {
    forall i :: 0 <= i < |s| ==> s[i] != ')'
  }

  lemma DigitsPunctuationFree(s: string)
    requires AllDigits(s)
    ensures ',' !in s && NoCloseParen(s)
  {
    forall i | 0 <= i < |s|
      ensures s[i] != ','
    {
      assert IsAsciiDigit(s[i]);
    }
  }

  lemma ConcatNoCloseParen(x: string, y: string)
    requires NoCloseParen(x) && NoCloseParen(y)
    ensures NoCloseParen(x + y)
  {
    forall i | 0 <= i < |x + y|
      ensures (x + y)[i] != ')'
    {
      if i >= |x| {
        assert (x + y)[i] == y[i - |x|];
      }
    }
  }

  lemma TrimDigits(s: string)
    requires AllDigits(s)
    ensures Trim(s) == s
  {
    DigitsUntrimmed(s);
    TrimEndDigits(s);
  }

  lemma TrimEndDigits(s: string)
    requires AllDigits(s)
    ensures TrimEnd(s) == s
  {
    if |s| > 0 {
      assert IsAsciiDigit(s[|s| - 1]);
    }
  }

  lemma JoinThree(a: string, b: string, c: string)
    ensures Join([a, b, c], ",") == a + "," + b + "," + c
  {
    assert [a, b, c][1..] == [b, c];
    assert [b, c][1..] == [c];
    assert Join([b, c], ",") == b + "," + c;
    assert Join([a, b, c], ",") == a + "," + (b + "," + c);
  }

  /** The inner text of three digit strings has no `)` and splits back into them. */
  lemma InnerOfThree(a: string, b: string, c: string)
    requires AllDigits(a) && AllDigits(b) && AllDigits(c)
    ensures NoCloseParen(Join([a, b, c], ","))
    ensures Split(Join([a, b, c], ","), ',') == [a, b, c]
  {
    DigitsPunctuationFree(a);
    DigitsPunctuationFree(b);
    DigitsPunctuationFree(c);
    JoinThree(a, b, c);
    ConcatNoCloseParen(a, ",");
    ConcatNoCloseParen(a + ",", b);
    ConcatNoCloseParen(a + "," + b, ",");
    ConcatNoCloseParen(a + "," + b + ",", c);
    var parts := [a, b, c];
    forall i | 0 <= i < |parts|
      ensures ',' !in parts[i]
    {
    }
    SplitJoin(parts, ',');
  }

  /** `name(inner)` has the functional shape when the inner text is non-empty and has no `)`. */
  lemma CallShape(name: string, inner: string)
    requires Lower(name) == name && |inner| > 0 && NoCloseParen(inner)
    ensures FunctionShape(name + "(" + inner + ")", name)
    ensures (name + "(" + inner + ")")[|name| + 1..|name + "(" + inner + ")"| - 1] == inner
  {
    var s := name + "(" + inner + ")";
    assert s[..|name|] == name;
    forall i | |name| < i < |s| - 1
      ensures s[i] != ')'
    {
      assert s[i] == inner[i - |name| - 1];
    }
  }

  /** Parts that are plain digit strings come back untouched by the trimming. */
  lemma PartsOfDigits(s: string, name: string, ps: seq<string>)
    requires FunctionShape(s, name)
    requires Split(s[|name| + 1..|s| - 1], ',') == ps
    requires forall i :: 0 <= i < |ps| ==> AllDigits(ps[i])
    ensures Parts(s, name) == ps
  {
    forall i | 0 <= i < |ps|
      ensures Trim(ps[i]) == ps[i]
    {
      TrimDigits(ps[i]);
    }
  }

  lemma RgbLowerCase()
    ensures Lower("rgb") == "rgb"
  {
  }

  /** The inner text of `rgb(r,g,b)` and its parts are the three numbers. */
  lemma RgbTextParts(r: nat, g: nat, b: nat)
    ensures FunctionShape(RgbText(r, g, b), "rgb")
    ensures Parts(RgbText(r, g, b), "rgb") == [NatToString(r), NatToString(g), NatToString(b)]
  {
    var x, y, z := NatToString(r), NatToString(g), NatToString(b);
    var inner := Join([x, y, z], ",");
    InnerOfThree(x, y, z);
    JoinThree(x, y, z);
    RgbLowerCase();
    CallShape("rgb", inner);
    PartsOfDigits(RgbText(r, g, b), "rgb", [x, y, z]);
  }

  /** The decimal text of a number is a valid channel exactly when the number is at most 255. */
  lemma ChannelOfNat(n: nat, percentOk: string -> bool)
    ensures IsValidRgbChannel(NatToString(n), percentOk) <==> n <= 255
  {
    ParseIntOfNat(n);
    var s := NatToString(n);
    assert IsAsciiDigit(s[|s| - 1]);
  }

  lemma RgbChannelsValid(r: nat, g: nat, b: nat, percentOk: string -> bool)
    requires r <= 255 && g <= 255 && b <= 255
    ensures FunctionShape(RgbText(r, g, b), "rgb")
    ensures var parts := Parts(RgbText(r, g, b), "rgb");
      |parts| == 3 && forall i :: 0 <= i < 3 ==> IsValidRgbChannel(parts[i], percentOk)
  {
    RgbTextParts(r, g, b);
    ChannelOfNat(r, percentOk);
    ChannelOfNat(g, percentOk);
    ChannelOfNat(b, percentOk);
    AllThreeValid(NatToString(r), NatToString(g), NatToString(b), percentOk);
  }

  lemma AllThreeValid(x: string, y: string, z: string, percentOk: string -> bool)
    requires IsValidRgbChannel(x, percentOk) && IsValidRgbChannel(y, percentOk) && IsValidRgbChannel(z, percentOk)
    ensures forall i :: 0 <= i < 3 ==> IsValidRgbChannel([x, y, z][i], percentOk)
  {
  }

  /** Every `rgb(r,g,b)` with channels in 0..255 is accepted. */
  lemma RgbAccepted(r: nat, g: nat, b: nat, percentOk: string -> bool)
    requires r <= 255 && g <= 255 && b <= 255
    ensures IsRgbColor(Str(RgbText(r, g, b)), percentOk)
  {
    RgbChannelsValid(r, g, b, percentOk);
  }

  /** A channel above 255 makes `rgb(r,g,b)` invalid. */
  lemma RgbRejectsLargeChannel(r: nat, g: nat, b: nat, percentOk: string -> bool)
    requires r > 255
    ensures !IsRgbColor(Str(RgbText(r, g, b)), percentOk)
  {
    RgbTextParts(r, g, b);
    ChannelOfNat(r, percentOk);
  }
}
